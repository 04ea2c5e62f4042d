/** The task-details modal: it opens a copy of a task's free-form data in
    which the preferred brand and model lists are shown as comma-separated
    text, and on save turns that text back into lists and sends the update. */
module TaskDetails {
  import opened Js

  /** A lead task as the modal receives it.  `taskData` is the task's own
      data object (absent when the task has none). */
  datatype Task = Task(id: int, leadId: int, status: string, taskData: Option<JsObject>)

  const BrandsKey := "preferredBrands"
  const ModelsKey := "preferredModels"

  // ---------------------------------------------------------------------
  // Array.prototype.join over JSON values

  /** `arr.join(sep)` from position `i` on: null elements print as nothing,
      nested arrays join with ",", objects print as "[object Object]". */
  function JoinFrom(arr: Json, i: nat, sep: string): string
    requires arr.JArr? && i <= |arr.items|
    decreases arr, |arr.items| - i
  {
    if i == |arr.items| then ""
    else if i + 1 == |arr.items| then ElemText(arr.items[i])
    else ElemText(arr.items[i]) + sep + JoinFrom(arr, i + 1, sep)
  }

  /** How `join` prints one element. */
  function ElemText(v: Json): string
    decreases v, if v.JArr? then |v.items| + 1 else 0
  {
    match v
    case JNull => ""
    case JBool(b) => if b then "true" else "false"
    case JNum(n) => IntToString(n)
    case JStr(s) => s
    case JArr(_) => JoinFrom(v, 0, ",")
    case JObj(_) => "[object Object]"
  }

  /** A list of strings as a JSON array. */
  function Strs(parts: seq<string>): (r: seq<Json>)
    ensures |r| == |parts|
    ensures forall i :: 0 <= i < |parts| ==> r[i] == JStr(parts[i])
  {
    if parts == [] then [] else [JStr(parts[0])] + Strs(parts[1..])
  }

  /** Joining an array of strings is joining the strings. */
  lemma {:induction false} JoinStrings(parts: seq<string>, sep: string)
    ensures JoinFrom(JArr(Strs(parts)), 0, sep) == Join(parts, sep)
  {
    JoinStringsFrom(parts, 0, sep);
    assert parts[0..] == parts;
  }

  lemma {:induction false} JoinStringsFrom(parts: seq<string>, i: nat, sep: string)
    requires i <= |parts|
    ensures JoinFrom(JArr(Strs(parts)), i, sep) == Join(parts[i..], sep)
    decreases |parts| - i
  {
    var arr := JArr(Strs(parts));
    if i < |parts| {
      if i + 1 < |parts| {
        JoinStringsFrom(parts, i + 1, sep);
        assert parts[i..][1..] == parts[i + 1..];
      }
    }
  }

  // ---------------------------------------------------------------------
  // The two conversions

  /** `ngOnInit`: a (truthy) array becomes its `', '`-joined text; any other
      value stays as it is. */
  function ToEditText(v: Json): (r: Json)
    ensures v.JArr? ==> r.JStr?
    ensures !v.JArr? ==> r == v
  {
    if Truthy(v) && v.JArr? then JStr(JoinFrom(v, 0, ", ")) else v
  }

  /** Each piece trimmed. */
  function TrimAll(ps: seq<string>): (r: seq<string>)
    ensures |r| == |ps|
    ensures forall i :: 0 <= i < |ps| ==> r[i] == Trim(ps[i])
  {
    if ps == [] then [] else [Trim(ps[0])] + TrimAll(ps[1..])
  }

  function NonEmpty(s: string): bool
  {
    |s| > 0
  }

  /** `s.split(',').map(b => b.trim()).filter(b => b.length > 0)`. */
  function Pieces(s: string): seq<string>
  {
    Filter(NonEmpty, TrimAll(Split(s, ',')))
  }

  /** `save`: non-empty text becomes the list of its trimmed, non-empty
      comma-separated pieces; any other value (the empty string included)
      stays as it is. */
  function FromEditText(v: Json): (r: Json)
    ensures v.JStr? && v.s != "" ==> r.JArr?
    ensures !(v.JStr? && v.s != "") ==> r == v
  {
    if Truthy(v) && v.JStr? then JArr(Strs(Pieces(v.s))) else v
  }

  /** Converting one key of a data object; an absent key is left absent. */
  function ConvertKey(data: map<string, Json>, key: string, f: Json -> Json): (r: map<string, Json>)
    ensures r.Keys == data.Keys
    ensures forall k :: k in data && k != key ==> r[k] == data[k]
    ensures key in data ==> r[key] == f(data[key])
  {
    if key in data then data[key := f(data[key])] else data
  }

  /** The data object the form edits: a copy of the task's data with both
      lists shown as text. */
  function EditForm(data: map<string, Json>): map<string, Json>
  {
    ConvertKey(ConvertKey(data, BrandsKey, ToEditText), ModelsKey, ToEditText)
  }

  /** The data object sent on save: a copy of the form's data with both
      texts turned back into lists. */
  function SaveData(data: map<string, Json>): map<string, Json>
  {
    ConvertKey(ConvertKey(data, BrandsKey, FromEditText), ModelsKey, FromEditText)
  }

  /** The body of the update request.  `completed` is only present (and then
      true) when the chosen status is 'completed'. */
  datatype UpdateData = UpdateData(status: string, taskData: map<string, Json>, completed: Option<bool>)

  function Payload(status: string, data: map<string, Json>): (r: UpdateData)
    ensures r.completed != Some(false)
    ensures r.completed.Some? <==> status == "completed"
    ensures r.status == status && r.taskData == SaveData(data)
  {
    UpdateData(status, SaveData(data), if status == "completed" then Some(true) else None)
  }

  /** The status the form starts with: the task's own, or 'pending' when it
      is empty. */
  function InitialStatus(status: string): (r: string)
    ensures r != ""
    ensures status != "" ==> r == status
    ensures status == "" ==> r == "pending"
  {
    if status != "" then status else "pending"
  }

  // ---------------------------------------------------------------------
  // Properties of the conversions

  /** Both conversions touch only the two list keys. */
  lemma ConversionsKeepOtherKeys(data: map<string, Json>)
    ensures EditForm(data).Keys == data.Keys && SaveData(data).Keys == data.Keys
    ensures forall k :: k in data && k != BrandsKey && k != ModelsKey ==>
              EditForm(data)[k] == data[k] && SaveData(data)[k] == data[k]
  {
  }

  /** Text the form shows for an empty list is the empty string, and the
      empty string is sent as it is (it is falsy, so it is not split). */
  lemma EmptyListSentAsEmptyText()
    ensures ToEditText(JArr([])) == JStr("")
    ensures FromEditText(ToEditText(JArr([]))) == JStr("")
  {
  }

  /** Trimming twice is trimming once. */
  lemma TrimIdempotent(s: string)
    ensures Trim(Trim(s)) == Trim(s)
  {
    TrimSpec(s);
    TrimmedIsFixed(Trim(s));
  }

  /** The pieces `split` produces contain no separator. */
  lemma {:induction false} SplitPiecesLackSeparator(s: string, c: char)
    ensures forall i :: 0 <= i < |Split(s, c)| ==> c !in Split(s, c)[i]
  {
    if s != [] {
      SplitPiecesLackSeparator(s[1..], c);
    }
  }

  /** A trimmed text is a slice of the text, so it holds no character the
      text does not. */
  lemma TrimKeepsOut(s: string, c: char)
    requires c !in s
    ensures c !in Trim(s)
  {
    TrimSpec(s);
  }

  /** A list entry that survives editing unchanged: non-empty, trimmed
      and free of commas. */
  predicate GoodPiece(p: string)
  {
    p != "" && Trim(p) == p && ',' !in p
  }

  /** Every piece `save` keeps is non-empty, trimmed and comma-free. */
  lemma PiecesSpec(s: string)
    ensures forall i :: 0 <= i < |Pieces(s)| ==> GoodPiece(Pieces(s)[i])
  {
    var sp := Split(s, ',');
    var ts := TrimAll(sp);
    SplitPiecesLackSeparator(s, ',');
    forall j | 0 <= j < |ts| ensures Trim(ts[j]) == ts[j] && ',' !in ts[j] {
      TrimIdempotent(sp[j]);
      TrimKeepsOut(sp[j], ',');
    }
  }

  /** The text the form shows for a list of strings is the list joined
      with ", ". */
  lemma EditTextOfList(parts: seq<string>)
    ensures ToEditText(JArr(Strs(parts))) == JStr(Join(parts, ", "))
  {
    JoinStrings(parts, ", ");
  }

  /** Trimming the pieces of the joined text gives back the list. */
  lemma TrimmedPiecesOfJoin(parts: seq<string>)
    requires parts != []
    requires forall i :: 0 <= i < |parts| ==> Trim(parts[i]) == parts[i] && ',' !in parts[i]
    ensures TrimAll(Split(Join(parts, ", "), ',')) == parts
  {
    var sep := [','] + " ";
    assert sep == ", ";
    SplitJoin(parts, ',', " ");
    var sp := Split(Join(parts, sep), ',');
    TrimAllPadded(sp, parts);
  }

  /** Trimming pieces that are the list's strings, all but the first with a
      space in front, gives back the list. */
  lemma TrimAllPadded(sp: seq<string>, parts: seq<string>)
    requires |sp| == |parts| && parts != [] && sp[0] == parts[0]
    requires forall i :: 1 <= i < |parts| ==> sp[i] == " " + parts[i]
    requires forall i :: 0 <= i < |parts| ==> Trim(parts[i]) == parts[i]
    ensures TrimAll(sp) == parts
  {
    var ts := TrimAll(sp);
    forall i | 0 <= i < |parts| ensures ts[i] == parts[i] {
      if i > 0 {
        TrimPadded(parts[i]);
      }
    }
  }

  lemma TrimPadded(p: string)
    requires Trim(p) == p
    ensures Trim(" " + p) == p
  {
    TrimSkipsLeadingSpace(" ", p);
  }

  /** Splitting the joined text gives back the list. */
  lemma PiecesOfJoin(parts: seq<string>)
    requires parts != []
    requires forall i :: 0 <= i < |parts| ==> GoodPiece(parts[i])
    ensures Pieces(Join(parts, ", ")) == parts
  {
    TrimmedPiecesOfJoin(parts);
    FilterAll(NonEmpty, parts);
  }

  /** The list is a fixed point of both conversions in turn: a non-empty
      list of non-empty, trimmed, comma-free strings comes back identical. */
  lemma ListRoundTrip(parts: seq<string>)
    requires parts != []
    requires forall i :: 0 <= i < |parts| ==> GoodPiece(parts[i])
    ensures FromEditText(ToEditText(JArr(Strs(parts)))) == JArr(Strs(parts))
  {
    var text := Join(parts, ", ");
    EditTextOfList(parts);
    JoinNonEmpty(parts, ", ");
    PiecesOfJoin(parts);
    assert FromEditText(JStr(text)) == JArr(Strs(Pieces(text)));
  }

  lemma JoinNonEmpty(parts: seq<string>, sep: string)
    requires parts != [] && parts[0] != ""
    ensures Join(parts, sep) != ""
  {
  }

  /** A non-empty array of good entries. */
  predicate EditableList(v: Json)
  {
    v.JArr? && v.items != [] && forall i :: 0 <= i < |v.items| ==> v.items[i].JStr? && GoodPiece(v.items[i].s)
  }

  /** The strings of an array of strings. */
  function Texts(items: seq<Json>): (r: seq<string>)
    requires forall i :: 0 <= i < |items| ==> items[i].JStr?
    ensures |r| == |items|
    ensures forall i :: 0 <= i < |items| ==> r[i] == items[i].s
  {
    if items == [] then [] else [items[0].s] + Texts(items[1..])
  }

  /** Such an array survives opening and saving unchanged. */
  lemma EditableRoundTrip(v: Json)
    requires EditableList(v)
    ensures FromEditText(ToEditText(v)) == v
  {
    var parts := Texts(v.items);
    assert Strs(parts) == v.items;
    ListRoundTrip(parts);
  }

  /** Converting a key and converting it back restores the object. */
  lemma ConvertKeyInverse(data: map<string, Json>, key: string, f: Json -> Json, g: Json -> Json)
    requires key in data ==> g(f(data[key])) == data[key]
    ensures ConvertKey(ConvertKey(data, key, f), key, g) == data
  {
  }

  /** Conversions of two different keys commute. */
  lemma ConvertKeysCommute(data: map<string, Json>, k1: string, f1: Json -> Json, k2: string, f2: Json -> Json)
    requires k1 != k2
    ensures ConvertKey(ConvertKey(data, k1, f1), k2, f2) == ConvertKey(ConvertKey(data, k2, f2), k1, f1)
  {
  }

  /** Opening the form and saving it unchanged sends the data back as it
      was, whenever each list key is absent or holds such a list. */
  lemma OpenThenSave(data: map<string, Json>)
    requires BrandsKey in data ==> EditableList(data[BrandsKey])
    requires ModelsKey in data ==> EditableList(data[ModelsKey])
    ensures SaveData(EditForm(data)) == data
  {
    var b1 := ConvertKey(data, BrandsKey, ToEditText);
    var b2 := ConvertKey(b1, ModelsKey, ToEditText);
    ConvertKeysCommute(b1, ModelsKey, ToEditText, BrandsKey, FromEditText);
    var c := ConvertKey(b1, BrandsKey, FromEditText);
    if BrandsKey in data {
      EditableRoundTrip(data[BrandsKey]);
    }
    ConvertKeyInverse(data, BrandsKey, ToEditText, FromEditText);
    assert c == data;
    if ModelsKey in data {
      EditableRoundTrip(data[ModelsKey]);
    }
    ConvertKeyInverse(data, ModelsKey, ToEditText, FromEditText);
  }

  // ---------------------------------------------------------------------
  // The modal

  class TaskDetailsModal {
    var task: Task
    /** `taskForm.status`, bound to the status selector. */
    var formStatus: string
    /** `taskForm.taskData`, bound to the data fields. */
    var formData: JsObject
    var isSaving: bool
    /** Whether the modal has been closed. */
    var hidden: bool

    constructor (task: Task)
      ensures this.task == task && !isSaving && !hidden
      ensures formStatus == "" && formData.fields == map[]
    {
      this.task := task;
      formStatus := "";
      formData := new JsObject(map[]);
      isSaving := false;
      hidden := false;
    }

    /** `ngOnInit`: the form gets the task's status (or 'pending') and a
        fresh shallow copy of its data, in which the two lists are then
        replaced by their text.  The task's own data object is not touched. */
    method NgOnInit()
      modifies this
      ensures task == old(task) && isSaving == old(isSaving) && hidden == old(hidden)
      ensures formStatus == InitialStatus(task.status)
      ensures fresh(formData)
      ensures formData.fields == EditForm(if task.taskData.Some? then task.taskData.value.fields else map[])
      ensures task.taskData.Some? ==> task.taskData.value.fields == old(task.taskData.value.fields)
    {
      formStatus := InitialStatus(task.status);
      var copy := if task.taskData.Some? then task.taskData.value.fields else map[];
      formData := new JsObject(copy);
      if BrandsKey in formData.fields && Truthy(formData.fields[BrandsKey]) && formData.fields[BrandsKey].JArr? {
        formData.fields := formData.fields[BrandsKey := ToEditText(formData.fields[BrandsKey])];
      }
      if ModelsKey in formData.fields && Truthy(formData.fields[ModelsKey]) && formData.fields[ModelsKey].JArr? {
        formData.fields := formData.fields[ModelsKey := ToEditText(formData.fields[ModelsKey])];
      }
    }

    /** `save`: raises `isSaving` and builds the update request from a copy
        of the form data; the form itself keeps its text. */
    method Save() returns (request: UpdateData)
      modifies this
      ensures isSaving
      ensures task == old(task) && hidden == old(hidden)
      ensures formStatus == old(formStatus) && formData == old(formData)
      ensures request == Payload(formStatus, formData.fields)
    {
      isSaving := true;
      var data := formData.fields;
      data := ConvertKey(data, BrandsKey, FromEditText);
      data := ConvertKey(data, ModelsKey, FromEditText);
      var completed := None;
      if formStatus == "completed" {
        completed := Some(true);
      }
      request := UpdateData(formStatus, data, completed);
    }

    /** The update succeeded: the modal closes. */
    method OnSaved()
      modifies this
      ensures hidden
      ensures task == old(task) && isSaving == old(isSaving)
      ensures formStatus == old(formStatus) && formData == old(formData)
    {
      hidden := true;
    }

    /** The update failed: `isSaving` is lowered so the user can retry;
        nothing else changes. */
    method OnSaveError()
      modifies this
      ensures !isSaving
      ensures task == old(task) && hidden == old(hidden)
      ensures formStatus == old(formStatus) && formData == old(formData)
    {
      isSaving := false;
    }

    /** `cancel`: the modal closes without a request. */
    method Cancel()
      modifies this
      ensures hidden
      ensures task == old(task) && isSaving == old(isSaving)
      ensures formStatus == old(formStatus) && formData == old(formData)
    {
      hidden := true;
    }
  }
}
