/** The task card on a lead's page: a toggle for the task's description,
    the overdue test and the rewrite of the description's light markup into
    HTML. */
module TaskCard {
  import opened Js

  /** The fields of a lead task the card reads.  `dueDate` is a timestamp;
      `None` stands for a missing or empty date. */
  datatype LeadTask = LeadTask(id: int, title: string, description: Option<string>, dueDate: Option<int>, completed: bool)

  // ---------------------------------------------------------------------
  // formatDescription

  const Br := "<br>"
  /** The rule marker: three U+2501 box-drawing characters. */
  const Rule := "━━━"
  const Hr := "<hr style=" + "\"border: " + "1px solid " + "#e5e7eb; " + "margin: " + "10px 0;\">"
  const Bar: char := '━'

  /** The `<hr>` element holds neither a line terminator nor `━`, and ends
      with `>`. */
  lemma HrLacks(c: char)
    requires IsLineTerminator(c) || c == Bar
    ensures c !in Hr && Hr != [] && Hr[|Hr| - 1] == '>'
  {
  }

  /** The nine markers the emoji rule looks for. */
  predicate IsEmoji(c: char)
  {
    c == '\U{2705}' || c == '\U{274C}' || c == '\U{1F4A1}' || c == '\U{26A1}' || c == '\U{1F4DD}'
    || c == '\U{1F4AC}' || c == '\U{1F4DE}' || c == '\U{1F4CB}' || c == '\U{1F3AF}'
  }

  /** The characters after which `^` matches in a multiline pattern. */
  predicate IsLineTerminator(c: char)
  {
    c == '\n' || c == '\r' || c == '\U{2028}' || c == '\U{2029}'
  }

  function Strong(x: string): string
  {
    "<strong>" + x + "</strong>"
  }

  /** `s.replace(/^(✅|❌|…|🎯)/gm, '<strong>$1</strong>')`: a marker is
      wrapped where a line starts, that is at the start of the text
      (`atLineStart`) or right behind a line terminator. */
  function WrapEmoji(s: string, atLineStart: bool): string
    decreases |s|
  {
    if s == [] then []
    else (if atLineStart && IsEmoji(s[0]) then Strong([s[0]]) else [s[0]]) + WrapEmoji(s[1..], IsLineTerminator(s[0]))
  }

  /** Where the lazy `(.*?)\*\*` that starts at `j` ends: the first `**` at
      or after `j` with no line terminator before it. */
  function CloseAt(s: string, j: nat): (r: Option<nat>)
    ensures r.Some? ==> j <= r.value && r.value + 2 <= |s|
    decreases |s| - j
  {
    if j + 2 > |s| then None
    else if s[j] == '*' && s[j + 1] == '*' then Some(j)
    else if IsLineTerminator(s[j]) then None
    else CloseAt(s, j + 1)
  }

  /** The last `replace` of `formatDescription`: each lazily matched pair
      of `**` on one line becomes a `<strong>` element. */
  function Bold(s: string): string
    decreases |s|
  {
    if s == [] then []
    else if |s| >= 2 && s[0] == '*' && s[1] == '*' && CloseAt(s, 2).Some? then
      var k := CloseAt(s, 2).value;
      Strong(s[2..k]) + Bold(s[k + 2..])
    else [s[0]] + Bold(s[1..])
  }

  /** The first `replace`: every newline becomes `<br>`. */
  function Breaks(d: string): string
  {
    ReplaceAll(d, "\n", Br)
  }

  /** The second `replace`: every `━━━` becomes the `<hr>` element. */
  function Rules(s: string): string
  {
    ReplaceAll(s, Rule, Hr)
  }

  /** `formatDescription`: newlines, then rules, then line-start markers,
      then bold pairs. */
  function FormatDescription(d: string): string
  {
    Bold(WrapEmoji(Rules(Breaks(d)), true))
  }

  // ---------------------------------------------------------------------
  // No newline survives

  /** The two rewrites that add tags add no character outside the tags. */
  lemma {:induction false} WrapEmojiKeepsAbsent(s: string, b: bool, c: char)
    requires c !in s && c !in "</strong>"
    ensures c !in WrapEmoji(s, b)
    decreases |s|
  {
    if s != [] {
      WrapEmojiKeepsAbsent(s[1..], IsLineTerminator(s[0]), c);
    }
  }

  lemma {:induction false} BoldKeepsAbsent(s: string, c: char)
    requires c !in s && c !in "</strong>"
    ensures c !in Bold(s)
    decreases |s|
  {
    if s != [] {
      if |s| >= 2 && s[0] == '*' && s[1] == '*' && CloseAt(s, 2).Some? {
        var k := CloseAt(s, 2).value;
        assert c !in s[2..k];
        BoldKeepsAbsent(s[k + 2..], c);
      } else {
        BoldKeepsAbsent(s[1..], c);
      }
    }
  }

  /** The output holds no newline: every one became `<br>`. */
  lemma NoNewline(d: string)
    ensures '\n' !in FormatDescription(d)
  {
    ReplaceAllRemovesChar(d, '\n', Br);
    HrLacks('\n');
    ReplaceAllKeepsCharAbsent(Breaks(d), Rule, Hr, '\n');
    var s2 := Rules(Breaks(d));
    WrapEmojiKeepsAbsent(s2, true, '\n');
    BoldKeepsAbsent(WrapEmoji(s2, true), '\n');
  }

  // ---------------------------------------------------------------------
  // No rule marker survives

  /** No three `━` in a row. */
  predicate NoRun(s: string)
    decreases |s|
  {
    |s| < 3 || (!(s[0] == Bar && s[1] == Bar && s[2] == Bar) && NoRun(s[1..]))
  }

  /** One character in front of a text without a run. */
  lemma ConsNoRun(x: char, q: string)
    requires NoRun(q)
    requires !(x == Bar && |q| >= 2 && q[0] == Bar && q[1] == Bar)
    ensures NoRun([x] + q)
  {
    assert ([x] + q)[1..] == q;
  }

  /** A text without a run, followed by one that cannot continue a run
      because the first ends in a character other than `━`. */
  lemma {:induction false} ConcatNoRun(p: string, q: string)
    requires NoRun(p) && NoRun(q)
    requires p != [] && p[|p| - 1] != Bar
    ensures NoRun(p + q)
    decreases |p|
  {
    if |p| == 1 {
      ConsNoRun(p[0], q);
    } else {
      ConcatNoRun(p[1..], q);
      assert (p + q)[1..] == p[1..] + q;
      assert (p + q)[0] == p[0] && (p + q)[1] == p[1];
      if |p| == 2 {
        assert (p + q)[1] != Bar;
      } else {
        assert (p + q)[2] == p[2];
      }
    }
  }

  /** Text without `━` has no run. */
  lemma {:induction false} NoBarNoRun(s: string)
    requires Bar !in s
    ensures NoRun(s)
    decreases |s|
  {
    if |s| >= 3 {
      NoBarNoRun(s[1..]);
    }
  }

  lemma {:induction false} SuffixNoRun(s: string, j: int)
    requires NoRun(s) && 0 <= j <= |s|
    ensures NoRun(s[j..])
    decreases j
  {
    if j > 0 {
      SuffixNoRun(s[1..], j - 1);
      assert s[1..][j - 1..] == s[j..];
    }
  }

  lemma {:induction false} PrefixNoRun(s: string, j: int)
    requires NoRun(s) && 0 <= j <= |s|
    ensures NoRun(s[..j])
    decreases |s|
  {
    if j >= 3 {
      PrefixNoRun(s[1..], j - 1);
      assert s[..j][1..] == s[1..][..j - 1];
      assert s[..j][0] == s[0] && s[..j][1] == s[1] && s[..j][2] == s[2];
    }
  }

  lemma StrongNoRun(x: string)
    requires NoRun(x)
    ensures NoRun(Strong(x))
  {
    TagsNoRun();
    ConcatLastNoBar(x, "</strong>");
    ConcatNoRun("<strong>", x + "</strong>");
    assert "<strong>" + (x + "</strong>") == Strong(x);
  }

  lemma TagsNoRun()
    ensures NoRun("<strong>") && NoRun("</strong>")
  {
    NoBarNoRun("<strong>");
    NoBarNoRun("</strong>");
  }

  /** A text without a run followed by one that starts with a character
      other than `━` and has no run. */
  lemma {:induction false} ConcatLastNoBar(p: string, q: string)
    requires NoRun(p) && NoRun(q) && q != [] && q[0] != Bar
    ensures NoRun(p + q)
    decreases |p|
  {
    if p != [] {
      ConcatLastNoBar(p[1..], q);
      ConsNoRun(p[0], p[1..] + q);
      assert [p[0]] + (p[1..] + q) == p + q;
    } else {
      assert p + q == q;
    }
  }

  /** The rule marker at the front is three `━` there. */
  lemma RuleAt(s: string)
    ensures StartsWith(s, Rule) <==> |s| >= 3 && s[0] == Bar && s[1] == Bar && s[2] == Bar
  {
    if |s| >= 3 && s[0] == Bar && s[1] == Bar && s[2] == Bar {
      assert s[..3] == Rule;
    }
  }

  /** When the replaced text starts with `━`, so did the text, and that
      character was copied. */
  lemma ReplaceHead(t: string)
    ensures ReplaceAll(t, Rule, Hr) != [] && ReplaceAll(t, Rule, Hr)[0] == Bar ==>
              t != [] && t[0] == Bar && (|t| >= 3 ==> ReplaceAll(t, Rule, Hr) == [Bar] + ReplaceAll(t[1..], Rule, Hr))
  {
    RuleAt(t);
    if |t| >= 3 && StartsWith(t, Rule) {
      assert ReplaceAll(t, Rule, Hr)[0] == '<';
    }
  }

  /** Replacing `━━━` leaves no run behind. */
  lemma {:induction false} ReplaceRuleNoRun(s: string)
    ensures NoRun(ReplaceAll(s, Rule, Hr))
    decreases |s|
  {
    if |s| < 3 {
    } else if StartsWith(s, Rule) {
      ReplaceRuleNoRun(s[3..]);
      HrLacks(Bar);
      NoBarNoRun(Hr);
      ConcatNoRun(Hr, ReplaceAll(s[3..], Rule, Hr));
    } else {
      var q := ReplaceAll(s[1..], Rule, Hr);
      ReplaceRuleNoRun(s[1..]);
      RuleAt(s);
      ReplaceHead(s[1..]);
      ReplaceHead(s[2..]);
      assert s[1..][1..] == s[2..];
      ConsNoRun(s[0], q);
    }
  }

  /** When the emoji step's output starts with `━`, so did its input. */
  lemma WrapHead(t: string, b: bool)
    ensures WrapEmoji(t, b) != [] && WrapEmoji(t, b)[0] == Bar ==>
              t != [] && t[0] == Bar && WrapEmoji(t, b) == [Bar] + WrapEmoji(t[1..], false)
  {
    if t != [] && b && IsEmoji(t[0]) {
      assert WrapEmoji(t, b)[0] == '<';
    }
  }

  lemma {:induction false} WrapEmojiNoRun(s: string, b: bool)
    requires NoRun(s)
    ensures NoRun(WrapEmoji(s, b))
    decreases |s|
  {
    if s != [] {
      var q := WrapEmoji(s[1..], IsLineTerminator(s[0]));
      SuffixNoRun(s, 1);
      WrapEmojiNoRun(s[1..], IsLineTerminator(s[0]));
      if b && IsEmoji(s[0]) {
        StrongNoRun([s[0]]);
        ConcatNoRun(Strong([s[0]]), q);
      } else {
        if |s| >= 2 {
          WrapHead(s[1..], IsLineTerminator(s[0]));
          WrapHead(s[2..], false);
          assert s[1..][1..] == s[2..];
        }
        ConsNoRun(s[0], q);
      }
    }
  }

  /** When the bold step's output starts with `━`, so did its input. */
  lemma BoldHead(t: string)
    ensures Bold(t) != [] && Bold(t)[0] == Bar ==> t != [] && t[0] == Bar && Bold(t) == [Bar] + Bold(t[1..])
  {
    if t != [] && |t| >= 2 && t[0] == '*' && t[1] == '*' && CloseAt(t, 2).Some? {
      assert Bold(t)[0] == '<';
    }
  }

  lemma {:induction false} BoldNoRun(s: string)
    requires NoRun(s)
    ensures NoRun(Bold(s))
    decreases |s|
  {
    if s != [] {
      if |s| >= 2 && s[0] == '*' && s[1] == '*' && CloseAt(s, 2).Some? {
        var k := CloseAt(s, 2).value;
        SuffixNoRun(s, 2);
        PrefixNoRun(s[2..], k - 2);
        assert s[2..][..k - 2] == s[2..k];
        SuffixNoRun(s, k + 2);
        BoldNoRun(s[k + 2..]);
        StrongNoRun(s[2..k]);
        ConcatNoRun(Strong(s[2..k]), Bold(s[k + 2..]));
      } else {
        var q := Bold(s[1..]);
        SuffixNoRun(s, 1);
        BoldNoRun(s[1..]);
        if |s| >= 2 {
          BoldHead(s[1..]);
          BoldHead(s[2..]);
          assert s[1..][1..] == s[2..];
        }
        ConsNoRun(s[0], q);
      }
    }
  }

  /** A text without a run does not contain the rule marker. */
  lemma {:induction false} NoRunNoRule(s: string)
    requires NoRun(s)
    ensures !Contains(s, Rule)
    decreases |s|
  {
    if |s| >= 3 {
      assert s[..3] != Rule by {
        assert !(s[0] == Bar && s[1] == Bar && s[2] == Bar);
      }
      NoRunNoRule(s[1..]);
    } else {
      assert !StartsWith(s, Rule);
      if s != [] {
        NoRunNoRule(s[1..]);
      }
    }
  }

  /** No rule marker is left in the output: every one became the `<hr>`
      element, and the later steps, which only put tags between
      characters, never join three `━` together. */
  lemma NoRuleLeft(d: string)
    ensures !Contains(FormatDescription(d), Rule)
  {
    var s2 := Rules(Breaks(d));
    ReplaceRuleNoRun(Breaks(d));
    WrapEmojiNoRun(s2, true);
    BoldNoRun(WrapEmoji(s2, true));
    NoRunNoRule(FormatDescription(d));
  }

  // ---------------------------------------------------------------------
  // The emoji rule

  /** Without line terminators the emoji rule acts only at the very start. */
  lemma {:induction false} WrapEmojiOneLine(s: string, b: bool)
    requires forall i :: 0 <= i < |s| ==> !IsLineTerminator(s[i])
    ensures WrapEmoji(s, b) == if b && s != [] && IsEmoji(s[0]) then Strong([s[0]]) + s[1..] else s
    decreases |s|
  {
    if s != [] {
      WrapEmojiOneLine(s[1..], false);
    }
  }

  /** The two first steps add no line terminator. */
  lemma RewritesKeepTerminatorsOut(d: string, c: char)
    requires IsLineTerminator(c) && c != '\n' && c !in d
    ensures c !in Rules(Breaks(d))
  {
    ReplaceAllKeepsCharAbsent(d, "\n", Br, c);
    HrLacks(c);
    ReplaceAllKeepsCharAbsent(Breaks(d), Rule, Hr, c);
  }

  /** After the first two steps no line terminator is left when the
      description's only line breaks were newlines. */
  lemma RewrittenOneLine(d: string)
    requires '\r' !in d && '\U{2028}' !in d && '\U{2029}' !in d
    ensures forall i :: 0 <= i < |Rules(Breaks(d))| ==> !IsLineTerminator(Rules(Breaks(d))[i])
  {
    ReplaceAllRemovesChar(d, '\n', Br);
    HrLacks('\n');
    ReplaceAllKeepsCharAbsent(Breaks(d), Rule, Hr, '\n');
    RewritesKeepTerminatorsOut(d, '\r');
    RewritesKeepTerminatorsOut(d, '\U{2028}');
    RewritesKeepTerminatorsOut(d, '\U{2029}');
  }

  /** Since every newline is already `<br>` when the emoji rule runs, a
      description whose only line breaks are newlines has a marker wrapped
      at its very start and nowhere else. */
  lemma EmojiOnlyAtStart(d: string)
    requires '\r' !in d && '\U{2028}' !in d && '\U{2029}' !in d
    ensures var s2 := Rules(Breaks(d));
            WrapEmoji(s2, true) == if s2 != [] && IsEmoji(s2[0]) then Strong([s2[0]]) + s2[1..] else s2
  {
    RewrittenOneLine(d);
    WrapEmojiOneLine(Rules(Breaks(d)), true);
  }

  // ---------------------------------------------------------------------
  // The bold rule

  /** Text that starts with neither `*` nor a run up to a closing pair is
      copied up to the next `*`. */
  lemma {:induction false} BoldPlain(a: string, b: string)
    requires '*' !in a
    ensures Bold(a + b) == a + Bold(b)
    decreases |a|
  {
    if a == [] {
      assert a + b == b;
    } else {
      BoldPlain(a[1..], b);
      assert a[0] in a;
      BoldCons(a[0], a[1..] + b);
      assert [a[0]] + (a[1..] + b) == a + b;
    }
  }

  /** A character other than `*` is copied. */
  lemma BoldCons(x: char, t: string)
    requires x != '*'
    ensures Bold([x] + t) == [x] + Bold(t)
  {
    assert ([x] + t)[1..] == t;
  }

  lemma {:induction false} CloseAtPlain(s: string, j: nat, k: nat)
    requires j <= k && k + 2 <= |s| && s[k] == '*' && s[k + 1] == '*'
    requires forall i :: j <= i < k ==> s[i] != '*' && !IsLineTerminator(s[i])
    ensures CloseAt(s, j) == Some(k)
    decreases k - j
  {
    if j < k {
      CloseAtPlain(s, j + 1, k);
    }
  }

  /** A pair of `**` around text without `*` on one line becomes a
      `<strong>` element; the rest is rewritten on its own. */
  lemma BoldPair(x: string, rest: string)
    requires forall i :: 0 <= i < |x| ==> x[i] != '*' && !IsLineTerminator(x[i])
    ensures Bold("**" + x + "**" + rest) == Strong(x) + Bold(rest)
  {
    var s := "**" + x + "**" + rest;
    var k := |x| + 2;
    assert s[k] == '*' && s[k + 1] == '*';
    CloseAtPlain(s, 2, k);
    assert s[2..k] == x;
    assert s[k + 2..] == rest;
  }

  /** Text without `**` is left alone by the bold rule. */
  lemma {:induction false} BoldNone(s: string)
    requires !Contains(s, "**")
    ensures Bold(s) == s
    decreases |s|
  {
    if s != [] {
      assert !(|s| >= 2 && s[0] == '*' && s[1] == '*') by {
        assert !StartsWith(s, "**");
      }
      BoldNone(s[1..]);
    }
  }

  /** A description with none of the markers is returned unchanged: no
      newline or other line break, no rule, no `**`, and no marker emoji at
      its start. */
  lemma PlainTextUnchanged(d: string)
    requires forall i :: 0 <= i < |d| ==> !IsLineTerminator(d[i])
    requires !Contains(d, Rule) && !Contains(d, "**")
    requires d == [] || !IsEmoji(d[0])
    ensures FormatDescription(d) == d
  {
    CharNotContained(d, '\n');
    ReplaceAllAbsent(d, "\n", Br);
    ReplaceAllAbsent(d, Rule, Hr);
    WrapEmojiOneLine(d, true);
    BoldNone(d);
  }

  lemma {:induction false} CharNotContained(s: string, c: char)
    requires c !in s
    ensures !Contains(s, [c])
    decreases |s|
  {
    if s != [] {
      assert !StartsWith(s, [c]) by {
        assert s[..1] == [s[0]];
      }
      CharNotContained(s[1..], c);
    }
  }

  // ---------------------------------------------------------------------
  // The card

  class TaskCardComponent {
    var task: LeadTask
    var descriptionVisible: bool

    constructor (task: LeadTask)
      ensures this.task == task && !descriptionVisible
    {
      this.task := task;
      descriptionVisible := false;
    }

    function IsDescriptionVisible(): bool
      reads this
    {
      descriptionVisible
    }

    /** `showDescription` reads the same flag. */
    function ShowDescription(): (r: bool)
      reads this
      ensures r == IsDescriptionVisible()
    {
      IsDescriptionVisible()
    }

    /** `toggleDescription`: the flag flips, so two toggles restore it. */
    method ToggleDescription()
      modifies this
      ensures descriptionVisible == !old(descriptionVisible)
      ensures task == old(task)
    {
      descriptionVisible := !descriptionVisible;
    }

    /** `isOverdue` at time `now`: never for a task without a due date or a
        completed task, otherwise exactly when the due time has passed. */
    function IsOverdue(now: int): (r: bool)
      reads this
      ensures task.dueDate.None? || task.completed ==> !r
      ensures task.dueDate.Some? && !task.completed ==> (r <==> task.dueDate.value < now)
    {
      if task.dueDate.None? || task.completed then false else task.dueDate.value < now
    }
  }
}
