// components/activity-item.tsx: the relative time under an activity. The
// date library's phrase ("5 minutes ago") is shortened by four string
// replacements, each of the first occurrence only.
module ActivityItem {
  import opened Outcomes
  import opened Text

  /** `formatTimestamp` after the clock-reading phrase is produced. */
  function FormatTimestamp(raw: string): string {
    var s1 := ReplaceFirst(raw, "minutes", "mins");
    var s2 := ReplaceFirst(s1, "minute", "min");
    var s3 := ReplaceFirst(s2, "hours", "hrs");
    ReplaceFirst(s3, "hour", "hr")
  }

  /** A pattern whose first character is not in `s` is not found, and
      `replace` returns `s`. */
  lemma Untouched(s: string, pat: string, rep: string)
    requires pat != [] && pat[0] !in s
    ensures IndexOf(s, pat) == None && !Contains(s, pat)
    ensures ReplaceFirst(s, pat, rep) == s
  {
    assert s + [] == s;
    IndexOfAfter(s, [], pat);
    IndexOfSpec(s, pat);
  }

  /** A pattern that does not start `s` and whose first character is not in
      the rest of `s` is not found either. */
  lemma MissesHead(s: string, pat: string, rep: string)
    requires pat != [] && s != [] && pat[0] !in s[1..]
    requires |s| < |pat| || s[..|pat|] != pat
    ensures IndexOf(s, pat) == None && !Contains(s, pat)
    ensures ReplaceFirst(s, pat, rep) == s
  {
    Untouched(s[1..], pat, rep);
    IndexOfSpec(s, pat);
  }

  /** `replace` on a string that starts with the pattern swaps that prefix. */
  lemma AtHead(pat: string, b: string, rep: string)
    ensures ReplaceFirst(pat + b, pat, rep) == rep + b
  {
    assert (pat + b)[..|pat|] == pat;
    assert (pat + b)[|pat|..] == b;
  }

  /** Each `replace` rewrites the first occurrence only: whatever follows
      it, later occurrences included, is kept. */
  lemma FirstOccurrenceOnly(a: string, pat: string, b: string, rep: string)
    requires pat != [] && pat[0] !in a
    ensures ReplaceFirst(a + pat + b, pat, rep) == a + rep + b
  {
    assert a + pat + b == a + (pat + b);
    ReplaceFirstAfter(a, pat + b, pat, rep);
    AtHead(pat, b, rep);
  }

  /** The text around the unit word holds no 'm' and no 'h', the first
      letters of the four patterns. */
  predicate Plain(s: string) {
    'm' !in s && 'h' !in s
  }

  /** The unit word ends the phrase or is followed by a space. */
  predicate Boundary(b: string) {
    b == [] || b[0] == ' '
  }

  /** A plain prefix passes through every replacement untouched. */
  lemma PlainPrefix(a: string, t: string)
    requires Plain(a)
    ensures FormatTimestamp(a + t) == a + FormatTimestamp(t)
  {
    var t1 := ReplaceFirst(t, "minutes", "mins");
    var t2 := ReplaceFirst(t1, "minute", "min");
    var t3 := ReplaceFirst(t2, "hours", "hrs");
    ReplaceFirstAfter(a, t, "minutes", "mins");
    ReplaceFirstAfter(a, t1, "minute", "min");
    ReplaceFirstAfter(a, t2, "hours", "hrs");
    ReplaceFirstAfter(a, t3, "hour", "hr");
  }

  /** After a plain prefix, a pattern not found in the rest is not found at
      all. */
  lemma AbsentAfterPlain(a: string, t: string, pat: string)
    requires Plain(a) && pat != [] && (pat[0] == 'm' || pat[0] == 'h')
    requires IndexOf(t, pat) == None
    ensures !Contains(a + t, pat)
  {
    IndexOfAfter(a, t, pat);
    IndexOfSpec(a + t, pat);
  }

  /** A longer unit word contains the shorter one. */
  lemma PluralContainsSingular(s: string, unit: string)
    requires Contains(s, unit + "s")
    ensures Contains(s, unit)
  {
    var i: nat :| i <= |s| && OccursAt(s, unit + "s", i);
    assert s[i..i + |unit|] == (unit + "s")[..|unit|];
    assert OccursAt(s, unit, i);
  }

  /** A phrase with neither "minute" nor "hour" comes back unchanged. */
  lemma NoUnitUnchanged(raw: string)
    requires !Contains(raw, "minute") && !Contains(raw, "hour")
    ensures FormatTimestamp(raw) == raw
  {
    if Contains(raw, "minutes") {
      assert "minute" + "s" == "minutes";
      PluralContainsSingular(raw, "minute");
    }
    if Contains(raw, "hours") {
      assert "hour" + "s" == "hours";
      PluralContainsSingular(raw, "hour");
    }
    ReplaceFirstAbsent(raw, "minutes", "mins");
    ReplaceFirstAbsent(raw, "minute", "min");
    ReplaceFirstAbsent(raw, "hours", "hrs");
    ReplaceFirstAbsent(raw, "hour", "hr");
  }

  /** `formatTimestamp` through its four intermediate results. */
  lemma Steps(raw: string, s1: string, s2: string, s3: string, s4: string)
    requires ReplaceFirst(raw, "minutes", "mins") == s1 && ReplaceFirst(s1, "minute", "min") == s2
    requires ReplaceFirst(s2, "hours", "hrs") == s3 && ReplaceFirst(s3, "hour", "hr") == s4
    ensures FormatTimestamp(raw) == s4
  {
  }

  /** The shortened words start no further match. */
  lemma MinsLeavesNoUnit(b: string)
    requires Plain(b)
    ensures IndexOf("mins" + b, "minute") == None && IndexOf("mins" + b, "hour") == None
  {
    var r := "mins" + b;
    assert r[1..] == "ins" + b;
    if |r| >= 6 { assert r[..6][3] == 's'; }
    MissesHead(r, "minute", "min");
    Untouched(r, "hour", "hr");
  }

  lemma MinLeavesNoUnit(b: string)
    requires Plain(b) && Boundary(b)
    ensures IndexOf("min" + b, "minute") == None && IndexOf("min" + b, "hour") == None
  {
    var r := "min" + b;
    assert r[1..] == "in" + b;
    if |r| >= 6 { assert r[..6][3] == b[0]; }
    MissesHead(r, "minute", "min");
    Untouched(r, "hour", "hr");
  }

  lemma HrLeavesNoUnit(b: string)
    requires Plain(b)
    ensures IndexOf("hr" + b, "minute") == None && IndexOf("hr" + b, "hour") == None
  {
    var r := "hr" + b;
    assert r[1..] == "r" + b;
    if |r| >= 4 { assert r[..4][1] == 'r'; }
    MissesHead(r, "hour", "hr");
    Untouched(r, "minute", "min");
  }

  /** "hrs" is "hr" followed by a plain 's'. */
  lemma HrsLeavesNoUnit(b: string)
    requires Plain(b)
    ensures IndexOf("hrs" + b, "minute") == None && IndexOf("hrs" + b, "hour") == None
  {
    assert "hrs" + b == "hr" + ("s" + b);
    HrLeavesNoUnit("s" + b);
  }

  /** The four rewrites on a phrase that starts with the unit word. */
  lemma MinutesHead(b: string)
    requires Plain(b)
    ensures FormatTimestamp("minutes" + b) == "mins" + b
  {
    var r := "mins" + b;
    AtHead("minutes", b, "mins");
    MinsLeavesNoUnit(b);
    MissesHead(r, "minute", "min");
    Untouched(r, "hours", "hrs");
    Untouched(r, "hour", "hr");
    Steps("minutes" + b, r, r, r, r);
  }

  lemma MinuteHead(b: string)
    requires Plain(b) && Boundary(b)
    ensures FormatTimestamp("minute" + b) == "min" + b
  {
    var t, r := "minute" + b, "min" + b;
    assert t[1..] == "inute" + b;
    if |t| >= 7 { assert t[..7][6] == b[0]; }
    MissesHead(t, "minutes", "mins");
    AtHead("minute", b, "min");
    Untouched(r, "hours", "hrs");
    Untouched(r, "hour", "hr");
    Steps(t, t, r, r, r);
  }

  lemma HoursHead(b: string)
    requires Plain(b)
    ensures FormatTimestamp("hours" + b) == "hrs" + b
  {
    var t, r := "hours" + b, "hrs" + b;
    Untouched(t, "minutes", "mins");
    Untouched(t, "minute", "min");
    AtHead("hours", b, "hrs");
    assert r[1..] == "rs" + b;
    if |r| >= 4 { assert r[..4][1] == 'r'; }
    MissesHead(r, "hour", "hr");
    Steps(t, t, t, r, r);
  }

  lemma HourHead(b: string)
    requires Plain(b) && Boundary(b)
    ensures FormatTimestamp("hour" + b) == "hr" + b
  {
    var t, r := "hour" + b, "hr" + b;
    Untouched(t, "minutes", "mins");
    Untouched(t, "minute", "min");
    assert t[1..] == "our" + b;
    if |t| >= 5 { assert t[..5][4] == b[0]; }
    MissesHead(t, "hours", "hrs");
    AtHead("hour", b, "hr");
    Steps(t, t, t, t, r);
  }

  /** A phrase `a + unit + b` whose unit word is the only place an 'm' or
      an 'h' appears (and which ends the word): the unit word is shortened,
      the rest is kept, and neither "minute" nor "hour" is left. */
  lemma OneUnitWord(a: string, unit: string, b: string)
    requires Plain(a) && Plain(b)
    requires unit in {"minutes", "minute", "hours", "hour"}
    requires unit in {"minute", "hour"} ==> Boundary(b)
    ensures var short := ShortUnit(unit);
      && FormatTimestamp(a + unit + b) == a + short + b
      && !Contains(FormatTimestamp(a + unit + b), "minute")
      && !Contains(FormatTimestamp(a + unit + b), "hour")
  {
    var short := ShortUnit(unit);
    if unit == "minutes" {
      MinutesHead(b);
      MinsLeavesNoUnit(b);
    } else if unit == "minute" {
      MinuteHead(b);
      MinLeavesNoUnit(b);
    } else if unit == "hours" {
      HoursHead(b);
      HrsLeavesNoUnit(b);
    } else {
      HourHead(b);
      HrLeavesNoUnit(b);
    }
    assert a + unit + b == a + (unit + b) && a + short + b == a + (short + b);
    PlainPrefix(a, unit + b);
    AbsentAfterPlain(a, short + b, "minute");
    AbsentAfterPlain(a, short + b, "hour");
  }

  /** The abbreviation each unit word gets. */
  function ShortUnit(unit: string): string {
    match unit
    case "minutes" => "mins"
    case "minute" => "min"
    case "hours" => "hrs"
    case _ => "hr"
  }

  /** The phrases the date library produces for a count whose digits hold
      no 'm' or 'h': with count "5", "5 minutes ago" gives "5 mins ago";
      with count "1", "1 minute ago" gives "1 min ago"; and so on. */
  lemma MinutesAgo(count: string)
    requires Plain(count)
    ensures FormatTimestamp(count + " " + "minutes" + " ago") == count + " " + "mins" + " ago"
    ensures FormatTimestamp(count + " " + "minute" + " ago") == count + " " + "min" + " ago"
  {
    OneUnitWord(count + " ", "minutes", " ago");
    OneUnitWord(count + " ", "minute", " ago");
  }

  lemma HoursAgo(count: string)
    requires Plain(count)
    ensures FormatTimestamp(count + " " + "hours" + " ago") == count + " " + "hrs" + " ago"
    ensures FormatTimestamp(count + " " + "hour" + " ago") == count + " " + "hr" + " ago"
    ensures FormatTimestamp("in " + count + " " + "hour" + "") == "in " + count + " " + "hr" + ""
  {
    OneUnitWord(count + " ", "hours", " ago");
    OneUnitWord(count + " ", "hour", " ago");
    OneUnitWord("in " + count + " ", "hour", "");
  }

  /** Days, months and the like pass through. */
  lemma OtherUnitsUnchanged()
    ensures FormatTimestamp("3 days ago") == "3 days ago"
  {
    Untouched("3 days ago", "minute", "min");
    Untouched("3 days ago", "hour", "hr");
    NoUnitUnchanged("3 days ago");
  }
}
