/** The date-mention extraction of `/extract-dates`: the regular expression
      \b(Jan(uary)?|Feb(ruary)?|Mar(ch)?|Apr(il)?|May|Jun(e)?|Jul(y)?|
        Aug(ust)?|Sep(tember)?|Oct(ober)?|Nov(ember)?|Dec(ember)?)
      \s+\d{1,2}(,\s+\d{4})?
    (groups written here without `?:`) applied with `re.findall`, written out
    as a left-to-right scanner, and the loop that pairs every mention with the
    fixed event label. */
module DateScan {
  import opened Wrappers
  import opened Text

  /** The month alternatives in the order the pattern tries them: for each
      month the long form first (the optional group is greedy), then the
      three-letter form; "May" has only one form. */
  const Months: seq<string> := SpringMonths + AutumnMonths
  /** The alternatives for January to June. */
  const SpringMonths: seq<string> := [
    "January", "Jan", "February", "Feb", "March", "Mar", "April", "Apr", "May",
    "June", "Jun"]
  /** The alternatives for July to December. */
  const AutumnMonths: seq<string> := [
    "July", "Jul", "August", "Aug", "September", "Sep",
    "October", "Oct", "November", "Nov", "December", "Dec"]

  const EventLabel := "Event description"

  /** One entry of the `/extract-dates` response. */
  datatype DateEvent = DateEvent(date: string, event: string)

  /** A match of the pattern: `s[start..end]`. */
  datatype Span = Span(start: nat, end: nat)

  predicate IsDigit(c: char)
  {
    '0' <= c <= '9'
  }

  predicate IsLetter(c: char)
  {
    ('a' <= c <= 'z') || ('A' <= c <= 'Z')
  }

  /** A character `\w` matches. */
  predicate IsWordChar(c: char)
  {
    IsLetter(c) || IsDigit(c) || c == '_'
  }

  /** `\b` at index `i`: exactly one of the characters around `i` is a word
      character. */
  predicate WordBoundary(s: string, i: nat)
    requires i <= |s|
  {
    (i > 0 && IsWordChar(s[i - 1])) != (i < |s| && IsWordChar(s[i]))
  }

  /** `t` occurs in `s` at index `i`. */
  predicate StartsAt(s: string, i: nat, t: string)
  {
    i + |t| <= |s| && s[i..i + |t|] == t
  }

  /** Greedy `\s*` from `j`: the end of the run of whitespace starting there. */
  function SpacesEnd(s: string, j: nat): (r: nat)
    requires j <= |s|
    ensures j <= r <= |s|
    decreases |s| - j
  {
    if j < |s| && IsSpace(s[j]) then SpacesEnd(s, j + 1) else j
  }

  /** Greedy `\d{0,n}` from `j`. */
  function DigitsEnd(s: string, j: nat, n: nat): (r: nat)
    requires j <= |s|
    ensures j <= r <= |s| && r <= j + n
    decreases n
  {
    if n > 0 && j < |s| && IsDigit(s[j]) then DigitsEnd(s, j + 1, n - 1) else j
  }

  /** The optional group `(,\s+\d{4})` tried at `d`: where it ends, if it
      matches. */
  function YearEnd(s: string, d: nat): (r: Option<nat>)
    requires d <= |s|
    ensures r.Some? ==> d + 6 <= r.value <= |s|
  {
    if d < |s| && s[d] == ',' then
      var w := SpacesEnd(s, d + 1);
      if w > d + 1 && DigitsEnd(s, w, 4) == w + 4 then Some(w + 4) else None
    else None
  }

  /** `\s+\d{1,2}(,\s+\d{4})?` tried at `j`, greedy throughout. */
  function TailEnd(s: string, j: nat): (r: Option<nat>)
    requires j <= |s|
    ensures r.Some? ==> j < r.value <= |s|
  {
    var w := SpacesEnd(s, j);
    if w == j then None
    else
      var d := DigitsEnd(s, w, 2);
      if d == w then None
      else match YearEnd(s, d)
        case Some(y) => Some(y)
        case None => Some(d)
  }

  /** The month alternatives `months`, tried in order at `i`, each followed
      by the rest of the pattern: the first that leads to a match decides where
      the match ends. */
  function TryMonths(months: seq<string>, s: string, i: nat): (r: Option<nat>)
    requires i <= |s|
    ensures r.Some? ==> i < r.value <= |s|
    decreases |months|
  {
    if |months| == 0 then None
    else if StartsAt(s, i, months[0]) && TailEnd(s, i + |months[0]|).Some? then
      TailEnd(s, i + |months[0]|)
    else TryMonths(months[1..], s, i)
  }

  /** The pattern anchored at `i`: where the match starting there ends. */
  function MatchAt(months: seq<string>, s: string, i: nat): (r: Option<nat>)
    requires i <= |s|
    ensures r.Some? ==> i < r.value <= |s|
  {
    if WordBoundary(s, i) then TryMonths(months, s, i) else None
  }

  /** `re.findall` from index `p`: try the pattern at each index in turn;
      after a match resume at its end, otherwise at the next index. */
  function Scan(months: seq<string>, s: string, p: nat): (r: seq<Span>)
    requires p <= |s|
    ensures forall k :: 0 <= k < |r| ==> p <= r[k].start < r[k].end <= |s|
    ensures forall j, k :: 0 <= j < k < |r| ==> r[j].end <= r[k].start
    decreases |s| - p
  {
    if p == |s| then []
    else match MatchAt(months, s, p)
      case Some(e) =>
        var rest := Scan(months, s, e);
        var r := [Span(p, e)] + rest;
        assert forall k :: 0 < k < |r| ==> r[k] == rest[k - 1];
        r
      case None => Scan(months, s, p + 1)
  }

  /** The list `re.findall` returns: the text of every match, in order. */
  function FindAll(s: string): (r: seq<string>)
    ensures |r| == |Scan(Months, s, 0)|
    ensures forall k :: 0 <= k < |r| ==> r[k] == s[Scan(Months, s, 0)[k].start..Scan(Months, s, 0)[k].end]
  {
    var spans := Scan(Months, s, 0);
    seq(|spans|, k requires 0 <= k < |spans| => s[spans[k].start..spans[k].end])
  }

  /** The loop of `/extract-dates`: one event with the fixed label per found
      date, in the order the dates were found. */
  method LabelDates(found: seq<string>) returns (events: seq<DateEvent>)
    ensures |events| == |found|
    ensures forall k :: 0 <= k < |events| ==> events[k] == DateEvent(found[k], EventLabel)
  {
    events := [];
    for k := 0 to |found|
      invariant |events| == k
      invariant forall j :: 0 <= j < k ==> events[j] == DateEvent(found[j], EventLabel)
    {
      events := events + [DateEvent(found[k], EventLabel)];
    }
  }

  // ---------------------------------------------------------------------
  // The pattern as a grammar, independently of how the scanner tries it.

  ghost predicate AllSpace(s: string, a: int, b: int)
  {
    0 <= a <= b <= |s| && forall k :: a <= k < b ==> IsSpace(s[k])
  }

  ghost predicate AllDigit(s: string, a: int, b: int)
  {
    0 <= a <= b <= |s| && forall k :: a <= k < b ==> IsDigit(s[k])
  }

  /** `s[d..e]` is a comma, at least one whitespace character and four
      digits. */
  ghost predicate YearAt(s: string, d: int, e: int)
  {
    0 <= d < |s| && s[d] == ',' && d + 1 < e - 4 && AllSpace(s, d + 1, e - 4) && AllDigit(s, e - 4, e)
  }

  /** `s[j..e]` is whitespace, one or two digits, and optionally a year. */
  ghost predicate TailAt(s: string, j: int, e: int)
  {
    exists w, d :: j < w < d <= w + 2 && AllSpace(s, j, w) && AllDigit(s, w, d) && (e == d || YearAt(s, d, e))
  }

  /** `s[i..e]` is a date mention: at a word boundary, a month token, then
      the tail. */
  ghost predicate DateAt(months: seq<string>, s: string, i: nat, e: int)
  {
    i <= |s| && WordBoundary(s, i) &&
    exists m :: 0 <= m < |months| && StartsAt(s, i, months[m]) && TailAt(s, i + |months[m]|, e)
  }

  /** `SpacesEnd` stops at the first character that is not whitespace. */
  lemma {:induction false} SpacesEndRun(s: string, j: nat)
    requires j <= |s|
    ensures forall k :: j <= k < SpacesEnd(s, j) ==> IsSpace(s[k])
    ensures SpacesEnd(s, j) == |s| || !IsSpace(s[SpacesEnd(s, j)])
    decreases |s| - j
  {
    if j < |s| && IsSpace(s[j]) {
      SpacesEndRun(s, j + 1);
    }
  }

  /** `DigitsEnd` stops after `n` digits or at the first non-digit. */
  lemma {:induction false} DigitsEndRun(s: string, j: nat, n: nat)
    requires j <= |s|
    ensures forall k :: j <= k < DigitsEnd(s, j, n) ==> IsDigit(s[k])
    ensures DigitsEnd(s, j, n) == j + n || DigitsEnd(s, j, n) == |s| || !IsDigit(s[DigitsEnd(s, j, n)])
    decreases n
  {
    if n > 0 && j < |s| && IsDigit(s[j]) {
      DigitsEndRun(s, j + 1, n - 1);
    }
  }

  /** A match found by the alternatives comes from one of them. */
  lemma {:induction false} TryMonthsFound(months: seq<string>, s: string, i: nat) returns (m: nat)
    requires i <= |s| && TryMonths(months, s, i).Some?
    ensures m < |months| && StartsAt(s, i, months[m])
    ensures TailEnd(s, i + |months[m]|) == TryMonths(months, s, i)
    decreases |months|
  {
    if StartsAt(s, i, months[0]) && TailEnd(s, i + |months[0]|).Some? {
      m := 0;
    } else {
      assert TryMonths(months, s, i) == TryMonths(months[1..], s, i);
      var later := TryMonthsFound(months[1..], s, i);
      m := later + 1;
      assert months[1..][later] == months[m];
    }
  }

  /** When no alternative leads to a match, none of them is followed by the
      rest of the pattern. */
  lemma {:induction false} TryMonthsNone(months: seq<string>, s: string, i: nat, m: nat)
    requires i <= |s| && TryMonths(months, s, i).None?
    requires m < |months| && StartsAt(s, i, months[m])
    ensures TailEnd(s, i + |months[m]|).None?
    decreases |months|
  {
    if m > 0 {
      assert months[1..][m - 1] == months[m];
      TryMonthsNone(months[1..], s, i, m - 1);
    }
  }

  lemma YearEndSound(s: string, d: nat)
    requires d <= |s| && YearEnd(s, d).Some?
    ensures YearAt(s, d, YearEnd(s, d).value)
  {
    SpacesEndRun(s, d + 1);
    var w := SpacesEnd(s, d + 1);
    DigitsEndRun(s, w, 4);
  }

  lemma TailEndSound(s: string, j: nat)
    requires j <= |s| && TailEnd(s, j).Some?
    ensures TailAt(s, j, TailEnd(s, j).value)
  {
    var w := SpacesEnd(s, j);
    SpacesEndRun(s, j);
    var d := DigitsEnd(s, w, 2);
    DigitsEndRun(s, w, 2);
    assert AllDigit(s, w, d);
    if YearEnd(s, d).Some? {
      YearEndSound(s, d);
    }
  }

  /** A year group read anywhere at `d` is the one the scanner reads. */
  lemma YearEndComplete(s: string, d: nat, e: int)
    requires d <= |s| && YearAt(s, d, e)
    ensures YearEnd(s, d) == Some(e)
  {
    SpacesEndRun(s, d + 1);
    DigitsEndRun(s, e - 4, 4);
    assert SpacesEnd(s, d + 1) == e - 4 by {
      assert !IsSpace(s[e - 4]);
    }
  }

  /** Every way of reading `s[j..e]` as a tail ends no later than where the
      greedy scanner ends. */
  lemma TailEndLongest(s: string, j: nat, e: int)
    requires j <= |s| && TailAt(s, j, e)
    ensures TailEnd(s, j).Some? && e <= TailEnd(s, j).value
  {
    var w', d' :| j < w' < d' <= w' + 2 && AllSpace(s, j, w') && AllDigit(s, w', d') && (e == d' || YearAt(s, d', e));
    var w := SpacesEnd(s, j);
    SpacesEndRun(s, j);
    assert w == w' by {
      assert !IsSpace(s[w']);
    }
    var d := DigitsEnd(s, w, 2);
    DigitsEndRun(s, w, 2);
    assert d' <= d;
    if e != d' {
      assert d' == d by {
        assert !IsDigit(s[d']);
      }
      YearEndComplete(s, d, e);
    }
  }

  /** `t` is a non-empty run of letters. */
  ghost predicate IsWord(t: string)
  {
    |t| > 0 && forall k :: 0 <= k < |t| ==> IsLetter(t[k])
  }

  /** Every alternative is a non-empty run of letters. */
  ghost predicate LetterTokens(months: seq<string>)
  {
    forall m :: 0 <= m < |months| ==> IsWord(months[m])
  }

  lemma MonthsAreLetters()
    ensures LetterTokens(Months)
  {
    SpringMonthsAreLetters();
    AutumnMonthsAreLetters();
    var all := SpringMonths + AutumnMonths;
    forall m | 0 <= m < |all| ensures IsWord(all[m]) {
      if m >= |SpringMonths| {
        assert all[m] == AutumnMonths[m - |SpringMonths|];
      }
    }
  }

  lemma SpringMonthsAreLetters()
    ensures LetterTokens(SpringMonths)
  {
  }

  lemma AutumnMonthsAreLetters()
    ensures LetterTokens(AutumnMonths)
  {
  }

  /** Position `j` holds a whitespace character. */
  predicate SpaceAt(s: string, j: nat)
  {
    j < |s| && IsSpace(s[j])
  }

  /** A tail starts with whitespace. */
  lemma TailStartsWithSpace(s: string, j: nat, e: int)
    requires TailAt(s, j, e)
    ensures SpaceAt(s, j)
  {
    var w, d :| j < w < d <= w + 2 && AllSpace(s, j, w) && AllDigit(s, w, d) && (e == d || YearAt(s, d, e));
  }

  /** Inside a run of letters there is no whitespace. */
  lemma NoSpaceInsideWord(s: string, i: nat, t: string, j: nat)
    requires IsWord(t) && StartsAt(s, i, t) && i <= j < i + |t|
    ensures !SpaceAt(s, j)
  {
    assert s[j] == t[j - i];
  }

  /** At one index at most one month token is followed by whitespace: a
      shorter token that is a prefix of a longer one is followed by a
      letter. */
  lemma TokenUnique(months: seq<string>, s: string, i: nat, m1: nat, m2: nat)
    requires LetterTokens(months)
    requires m1 < |months| && m2 < |months|
    requires StartsAt(s, i, months[m1]) && SpaceAt(s, i + |months[m1]|)
    requires StartsAt(s, i, months[m2]) && SpaceAt(s, i + |months[m2]|)
    ensures months[m1] == months[m2]
  {
    var t1, t2 := months[m1], months[m2];
    if |t1| < |t2| {
      NoSpaceInsideWord(s, i, t2, i + |t1|);
    } else if |t2| < |t1| {
      NoSpaceInsideWord(s, i, t1, i + |t2|);
    } else {
      assert t1 == s[i..i + |t1|];
    }
  }

  /** The month token a date mention starts with. */
  lemma DateToken(months: seq<string>, s: string, i: nat, e: int) returns (m: nat)
    requires DateAt(months, s, i, e)
    ensures m < |months| && StartsAt(s, i, months[m]) && TailAt(s, i + |months[m]|, e)
  {
    m :| 0 <= m < |months| && StartsAt(s, i, months[m]) && TailAt(s, i + |months[m]|, e);
  }

  /** Any date mention at `i` continues with a tail right after the token
      `months[m]` when that token is followed by whitespace. */
  lemma DateTailAfter(months: seq<string>, s: string, i: nat, m: nat, e: int)
    requires LetterTokens(months) && m < |months| && StartsAt(s, i, months[m])
    requires SpaceAt(s, i + |months[m]|) && DateAt(months, s, i, e)
    ensures TailAt(s, i + |months[m]|, e)
  {
    var m' := DateToken(months, s, i, e);
    TailStartsWithSpace(s, i + |months[m']|, e);
    TokenUnique(months, s, i, m, m');
  }

  /** A date mention at `i` ends no later than the tail the scanner finds
      after the token `months[m]`. */
  lemma DateNoLongerThanTail(months: seq<string>, s: string, i: nat, m: nat, e: int)
    requires LetterTokens(months) && m < |months| && StartsAt(s, i, months[m])
    requires TailEnd(s, i + |months[m]|).Some? && DateAt(months, s, i, e)
    ensures e <= TailEnd(s, i + |months[m]|).value
  {
    var j := i + |months[m]|;
    TailEndSound(s, j);
    TailStartsWithSpace(s, j, TailEnd(s, j).value);
    DateTailAfter(months, s, i, m, e);
    TailEndLongest(s, j, e);
  }

  /** A match the scanner finds at `i` is a date mention, and the longest
      one starting at `i`. */
  lemma MatchAtIsLongestDate(months: seq<string>, s: string, i: nat)
    requires LetterTokens(months) && i <= |s| && MatchAt(months, s, i).Some?
    ensures DateAt(months, s, i, MatchAt(months, s, i).value)
    ensures forall e :: DateAt(months, s, i, e) ==> e <= MatchAt(months, s, i).value
  {
    var m := TryMonthsFound(months, s, i);
    TailEndSound(s, i + |months[m]|);
    forall e | DateAt(months, s, i, e) ensures e <= MatchAt(months, s, i).value {
      DateNoLongerThanTail(months, s, i, m, e);
    }
  }

  /** Where the scanner finds no match, no date mention starts. */
  lemma NoMatchNoDate(months: seq<string>, s: string, i: nat, e: int)
    requires i <= |s| && MatchAt(months, s, i).None?
    ensures !DateAt(months, s, i, e)
  {
    if DateAt(months, s, i, e) {
      var m := DateToken(months, s, i, e);
      TailEndLongest(s, i + |months[m]|, e);
      TryMonthsNone(months, s, i, m);
    }
  }

  /** Every span the scan reports is a match of the pattern at its start. */
  lemma {:induction false} ScanSpansMatch(months: seq<string>, s: string, p: nat, k: nat)
    requires p <= |s| && k < |Scan(months, s, p)|
    ensures MatchAt(months, s, Scan(months, s, p)[k].start) == Some(Scan(months, s, p)[k].end)
    decreases |s| - p
  {
    var m := MatchAt(months, s, p);
    if m.Some? {
      var rest := Scan(months, s, m.value);
      assert Scan(months, s, p) == [Span(p, m.value)] + rest;
      if k > 0 {
        ScanSpansMatch(months, s, m.value, k - 1);
        assert Scan(months, s, p)[k] == rest[k - 1];
      }
    } else {
      assert Scan(months, s, p) == Scan(months, s, p + 1);
      ScanSpansMatch(months, s, p + 1, k);
    }
  }

  /** Some span of `r` contains index `q`. */
  ghost predicate Covers(r: seq<Span>, q: nat)
  {
    exists k :: 0 <= k < |r| && r[k].start <= q < r[k].end
  }

  /** Nothing is skipped: every index from `p` at which the pattern matches
      lies inside one of the spans the scan reports. */
  lemma {:induction false} ScanComplete(months: seq<string>, s: string, p: nat, q: nat)
    requires p <= q < |s| && MatchAt(months, s, q).Some?
    ensures Covers(Scan(months, s, p), q)
    decreases |s| - p
  {
    var r := Scan(months, s, p);
    var m := MatchAt(months, s, p);
    if m.Some? {
      var e := m.value;
      var rest := Scan(months, s, e);
      assert r[0] == Span(p, e);
      if q >= e {
        ScanComplete(months, s, e, q);
        var k :| 0 <= k < |rest| && rest[k].start <= q < rest[k].end;
        assert r[k + 1] == rest[k];
      }
    } else {
      ScanComplete(months, s, p + 1, q);
    }
  }

  // ---------------------------------------------------------------------
  // What `re.findall` returns for the month pattern.

  /** Every reported date is a date mention, the longest one starting at its
      position, and the mentions come left to right without overlapping. */
  lemma FindAllSpansAreLongestDates(s: string, k: nat)
    requires k < |Scan(Months, s, 0)|
    ensures DateAt(Months, s, Scan(Months, s, 0)[k].start, Scan(Months, s, 0)[k].end)
    ensures forall e :: DateAt(Months, s, Scan(Months, s, 0)[k].start, e) ==> e <= Scan(Months, s, 0)[k].end
    ensures k + 1 < |Scan(Months, s, 0)| ==> Scan(Months, s, 0)[k].end <= Scan(Months, s, 0)[k + 1].start
  {
    MonthsAreLetters();
    ScanSpansMatch(Months, s, 0, k);
    MatchAtIsLongestDate(Months, s, Scan(Months, s, 0)[k].start);
  }

  /** No date mention is missed: every position where one starts lies inside
      a reported span. */
  lemma FindAllMissesNothing(s: string, q: nat, e: int)
    requires DateAt(Months, s, q, e)
    ensures exists k :: 0 <= k < |Scan(Months, s, 0)| && Scan(Months, s, 0)[k].start <= q < Scan(Months, s, 0)[k].end
  {
    var m :| 0 <= m < |Months| && StartsAt(s, q, Months[m]) && TailAt(s, q + |Months[m]|, e);
    if MatchAt(Months, s, q).None? {
      NoMatchNoDate(Months, s, q, e);
    }
    ScanComplete(Months, s, 0, q);
    assert Covers(Scan(Months, s, 0), q);
  }

  /** A date mention starts with a letter. */
  lemma DateStartsWithLetter(months: seq<string>, s: string, i: nat, e: int)
    requires LetterTokens(months) && DateAt(months, s, i, e)
    ensures i < |s| && IsLetter(s[i])
  {
    var m :| 0 <= m < |months| && StartsAt(s, i, months[m]) && TailAt(s, i + |months[m]|, e);
    assert IsWord(months[m]);
    assert s[i] == s[i..i + |months[m]|][0];
  }

  /** Text without letters from `p` on holds no further date. */
  lemma ScanWithoutLetters(s: string, p: nat)
    requires p <= |s| && forall i :: p <= i < |s| ==> !IsLetter(s[i])
    ensures Scan(Months, s, p) == []
  {
    if |Scan(Months, s, p)| > 0 {
      var sp := Scan(Months, s, p)[0];
      ScanSpansMatch(Months, s, p, 0);
      MonthsAreLetters();
      MatchAtIsLongestDate(Months, s, sp.start);
      DateStartsWithLetter(Months, s, sp.start, sp.end);
    }
  }

  /** The day takes at most two digits: "Jan 123" yields "Jan 12". */
  lemma DayHasAtMostTwoDigits()
    ensures FindAll("Jan 123") == ["Jan 12"]
  {
    var s := "Jan 123";
    assert s[0..7][3] != Months[0][3];
    assert StartsAt(s, 0, Months[1]);
    assert SpacesEnd(s, 3) == 4;
    assert DigitsEnd(s, 4, 2) == 6;
    assert YearEnd(s, 6) == None;
    assert TryMonths(Months[1..], s, 0) == Some(6);
    assert MatchAt(Months, s, 0) == Some(6);
    assert MatchAt(Months, s, 6) == None;
    assert Scan(Months, s, 0) == [Span(0, 6)];
    assert s[0..6] == "Jan 12";
  }

  /** A year needs four digits: "Jan 5, 24" yields "Jan 5". */
  lemma ShortYearLeftOut()
    ensures FindAll("Jan 5, 24") == ["Jan 5"]
  {
    var s := "Jan 5, 24";
    assert s[0..7][3] != Months[0][3];
    assert StartsAt(s, 0, Months[1]);
    assert SpacesEnd(s, 3) == 4;
    assert DigitsEnd(s, 4, 2) == 5;
    assert SpacesEnd(s, 6) == 7;
    assert DigitsEnd(s, 7, 4) == 9;
    assert YearEnd(s, 5) == None;
    assert TryMonths(Months[1..], s, 0) == Some(5);
    assert MatchAt(Months, s, 0) == Some(5);
    ScanWithoutLetters(s, 5);
    assert Scan(Months, s, 0) == [Span(0, 5)];
    assert s[0..5] == "Jan 5";
  }

  /** A full date with its year is one mention. */
  lemma FullDateWithYear()
    ensures FindAll("January 5, 2024") == ["January 5, 2024"]
  {
    var s := "January 5, 2024";
    assert StartsAt(s, 0, Months[0]);
    assert SpacesEnd(s, 7) == 8;
    assert DigitsEnd(s, 8, 2) == 9;
    assert SpacesEnd(s, 10) == 11;
    assert DigitsEnd(s, 11, 4) == 15;
    assert YearEnd(s, 9) == Some(15);
    assert MatchAt(Months, s, 0) == Some(15);
    assert Scan(Months, s, 15) == [];
    assert s[0..15] == s;
  }

  /** Only the first word of "Sept 5" could start a mention, and "Sept" is
      not one of the month forms. */
  lemma NoDateInSept(i: nat, e: int)
    ensures !DateAt(Months, "Sept 5", i, e)
  {
    var s := "Sept 5";
    if DateAt(Months, s, i, e) {
      MonthsAreLetters();
      DateStartsWithLetter(Months, s, i, e);
      var m :| 0 <= m < |Months| && StartsAt(s, i, Months[m]) && TailAt(s, i + |Months[m]|, e);
      var w, d :| i + |Months[m]| < w < d <= w + 2 && AllSpace(s, i + |Months[m]|, w) && AllDigit(s, w, d);
      assert IsSpace(s[i + |Months[m]|]);
      assert i == 0 by {
        assert !WordBoundary(s, 1) && !WordBoundary(s, 2) && !WordBoundary(s, 3);
      }
      assert Months[m] == s[0..4] == "Sept";
      SeptNotAMonthForm(m);
    }
  }

  lemma SeptNotAMonthForm(m: nat)
    requires m < |Months|
    ensures Months[m] != "Sept"
  {
  }

  /** "Sept 5" holds no date. */
  lemma SeptIsNotAMonth()
    ensures FindAll("Sept 5") == []
  {
    if |Scan(Months, "Sept 5", 0)| > 0 {
      FindAllSpansAreLongestDates("Sept 5", 0);
      NoDateInSept(Scan(Months, "Sept 5", 0)[0].start, Scan(Months, "Sept 5", 0)[0].end);
    }
  }

  /** A purely numeric date such as "05/01/2024" is not found: every
      alternative starts with a month name. */
  lemma NumericDateNotFound()
    ensures FindAll("05/01/2024") == []
  {
    ScanWithoutLetters("05/01/2024", 0);
  }
}
