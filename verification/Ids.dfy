/**
 Deterministic _id printers and parsers (server/src/db/ids.js). A printer or parser that throws gives
 None. Numbers above Number.MAX_SAFE_INTEGER are left to the parameters of `Js`.
 */
module Ids {
  import opened Wrappers

  const MAX_SAFE: nat := 9_007_199_254_740_991

  /** Number(digits) of a decimal value, and the template string of a number. */
  datatype Js = Js(number: nat -> nat, show: nat -> string)

  /** Both are exact on safe integers. */
  ghost predicate Faithful(js: Js) {
    forall n: nat | n <= MAX_SAFE :: js.number(n) == n && js.show(n) == Print(n)
  }

  // ---- decimal numerals ----

  predicate IsDigit(c: char) {
    '0' <= c <= '9'
  }

  predicate AllDigits(s: string) {
    forall k | 0 <= k < |s| :: IsDigit(s[k])
  }

  function DigitChar(d: nat): (c: char)
    requires d < 10
    ensures IsDigit(c) && DigitValue(c) == d
  {
    '0' + d as char
  }

  function DigitValue(c: char): (d: nat)
    requires IsDigit(c)
    ensures d < 10
  {
    (c - '0') as nat
  }

  /** The decimal numeral of n. */
  function Print(n: nat): (s: string)
    ensures s != "" && AllDigits(s)
    ensures n >= 1 ==> s[0] != '0'
  {
    if n < 10 then [DigitChar(n)] else Print(n / 10) + [DigitChar(n % 10)]
  }

  function Value(s: string): nat
    requires AllDigits(s)
  {
    if s == "" then 0 else Value(s[..|s| - 1]) * 10 + DigitValue(s[|s| - 1])
  }

  lemma {:induction false} ValueOfPrint(n: nat)
    ensures Value(Print(n)) == n
  {
    if n < 10 {
      assert Print(n)[..0] == "";
    } else {
      ValueOfPrint(n / 10);
      assert Print(n)[..|Print(n)| - 1] == Print(n / 10);
    }
  }

  lemma {:induction false} LengthOfPrint(n: nat)
    requires n < 100
    ensures |Print(n)| <= 2
  {
  }

  lemma DigitIsItsValue(c: char)
    requires IsDigit(c)
    ensures DigitChar(DigitValue(c)) == c
  {
  }

  lemma {:induction false} PositiveValue(s: string)
    requires s != "" && AllDigits(s) && s[0] != '0'
    ensures Value(s) >= 1
  {
    if |s| == 1 {
      assert s[..0] == "";
      DigitIsItsValue(s[0]);
    } else {
      PositiveValue(s[..|s| - 1]);
    }
  }

  /** A numeral without a leading zero is the numeral of its value. */
  lemma {:induction false} PrintOfValue(s: string)
    requires s != "" && AllDigits(s) && s[0] != '0'
    ensures Print(Value(s)) == s
  {
    var n := |s| - 1;
    DigitIsItsValue(s[n]);
    if n == 0 {
      assert s[..0] == "";
    } else {
      PositiveValue(s[..n]);
      PrintOfValue(s[..n]);
      assert Value(s) / 10 == Value(s[..n]) && Value(s) % 10 == DigitValue(s[n]);
      assert s == s[..n] + [s[n]];
    }
  }

  // ---- fields ----

  /** /^\d{4}-\d{2}$/ */
  predicate SeasonShape(s: string) {
    |s| == 7 && AllDigits(s[..4]) && s[4] == '-' && AllDigits(s[5..])
  }

  /** Consecutive years; 2099-00 is one. */
  predicate ValidSeason(s: string) {
    SeasonShape(s) && (Value(s[..4]) + 1) % 100 == Value(s[5..])
  }

  predicate ValidGw(g: nat) {
    1 <= g <= 38
  }

  predicate IsHex(c: char) {
    '0' <= c <= '9' || 'a' <= c <= 'f'
  }

  predicate ValidGroup(s: string) {
    |s| == 24 && forall k | 0 <= k < |s| :: IsHex(s[k])
  }

  /** `int`: /^[1-9]\d*$/, else NaN. */
  function IntOf(js: Js, s: string): Option<nat> {
    if s != "" && AllDigits(s) && s[0] != '0' then Some(js.number(Value(s))) else None
  }

  predicate ShortDigits(s: string) {
    1 <= |s| <= 2 && AllDigits(s)
  }

  /** The text before and after the first colon. */
  function Split(s: string): Option<(string, string)> {
    if s == "" then None
    else if s[0] == ':' then Some(("", s[1..]))
    else match Split(s[1..])
      case Some(p) => Some(([s[0]] + p.0, p.1))
      case None => None
  }

  lemma {:induction false} SplitOfJoin(a: string, b: string)
    requires ':' !in a
    ensures Split(a + ":" + b) == Some((a, b))
  {
    var s := a + ":" + b;
    if a == "" {
      assert s == ":" + b && s[1..] == b;
    } else {
      assert s[0] == a[0] && s[1..] == a[1..] + ":" + b;
      SplitOfJoin(a[1..], b);
      assert [a[0]] + a[1..] == a;
    }
  }

  lemma NoColonInDigits(s: string)
    requires AllDigits(s)
    ensures ':' !in s
  {
  }

  lemma NoColonInSeason(s: string)
    requires SeasonShape(s)
    ensures ':' !in s
  {
  }

  // ---- printers ----

  datatype EventId = EventId(season: string, gw: nat)

  datatype SeasonId = SeasonId(season: string, entryId: nat)

  datatype GameweekId = GameweekId(season: string, entryId: nat, event: nat)

  datatype ResultId = ResultId(groupId: string, season: string, gw: nat)

  function PrintEvent(js: Js, f: EventId): Option<string> {
    if ValidSeason(f.season) && ValidGw(f.gw) then Some(f.season + ":" + js.show(f.gw)) else None
  }

  function PrintManagerSeason(js: Js, f: SeasonId): Option<string> {
    if ValidSeason(f.season) && f.entryId >= 1 then Some(f.season + ":" + js.show(f.entryId)) else None
  }

  function PrintManagerGameweek(js: Js, f: GameweekId): Option<string> {
    if ValidSeason(f.season) && f.entryId >= 1 && ValidGw(f.event)
    then Some(f.season + ":" + (js.show(f.entryId) + ":" + js.show(f.event))) else None
  }

  function PrintGwResult(js: Js, f: ResultId): Option<string> {
    if ValidGroup(f.groupId) && ValidSeason(f.season) && ValidGw(f.gw)
    then Some(f.groupId + ":" + (f.season + ":" + js.show(f.gw))) else None
  }

  // ---- parsers ----

  function ParseEvent(js: Js, id: string): Option<EventId> {
    match Split(id)
    case None => None
    case Some(p) =>
      if !SeasonShape(p.0) || !ShortDigits(p.1) then None
      else match IntOf(js, p.1)
        case None => None
        case Some(g) => if PrintEvent(js, EventId(p.0, g)) == Some(id) then Some(EventId(p.0, g)) else None
  }

  function ParseManagerSeason(js: Js, id: string): Option<SeasonId> {
    match Split(id)
    case None => None
    case Some(p) =>
      if !SeasonShape(p.0) || !AllDigits(p.1) then None
      else match IntOf(js, p.1)
        case None => None
        case Some(e) => if PrintManagerSeason(js, SeasonId(p.0, e)) == Some(id) then Some(SeasonId(p.0, e)) else None
  }

  function ParseManagerGameweek(js: Js, id: string): Option<GameweekId> {
    match Split(id)
    case None => None
    case Some(p) =>
      match Split(p.1)
      case None => None
      case Some(q) =>
        if !SeasonShape(p.0) || !AllDigits(q.0) || !ShortDigits(q.1) then None
        else match (IntOf(js, q.0), IntOf(js, q.1))
          case (Some(e), Some(g)) =>
            if PrintManagerGameweek(js, GameweekId(p.0, e, g)) == Some(id) then Some(GameweekId(p.0, e, g)) else None
          case _ => None
  }

  function ParseGwResult(js: Js, id: string): Option<ResultId> {
    match Split(id)
    case None => None
    case Some(p) =>
      match Split(p.1)
      case None => None
      case Some(q) =>
        if !ValidGroup(p.0) || !SeasonShape(q.0) || !ShortDigits(q.1) then None
        else match IntOf(js, q.1)
          case None => None
          case Some(g) => if PrintGwResult(js, ResultId(p.0, q.0, g)) == Some(id) then Some(ResultId(p.0, q.0, g)) else None
  }

  // ---- which ids there are ----

  function Pair(n: nat): string
    requires n < 100
  {
    [DigitChar(n / 10), DigitChar(n % 10)]
  }

  /** The season that starts in year y, as in 2026-27, 2009-10 and 2099-00. */
  function SeasonOf(y: nat): string
    requires y < 10000
  {
    Pair(y / 100) + Pair(y % 100) + "-" + Pair((y + 1) % 100)
  }

  predicate IsSeason(s: string) {
    exists y: nat :: y < 10000 && s == SeasonOf(y)
  }

  /** A numeral is its first digits, tenfold, and its last digit. */
  lemma ValueOfLast(s: string, n: nat)
    requires |s| == n + 1 && AllDigits(s)
    ensures AllDigits(s[..n]) && Value(s) == 10 * Value(s[..n]) + DigitValue(s[n])
  {
  }

  lemma PairIsItsValue(s: string)
    requires |s| == 2 && AllDigits(s)
    ensures Value(s) < 100 && s == Pair(Value(s))
  {
    ValueOfLast(s, 1);
    ValueOfLast(s[..1], 0);
    DigitIsItsValue(s[0]);
    DigitIsItsValue(s[1]);
  }

  lemma ValueOfPair(n: nat)
    requires n < 100
    ensures AllDigits(Pair(n)) && Value(Pair(n)) == n
  {
    var s := Pair(n);
    ValueOfLast(s, 1);
    ValueOfLast(s[..1], 0);
  }

  lemma ValueOfFour(s: string)
    requires |s| == 4 && AllDigits(s)
    ensures Value(s) == 100 * Value(s[..2]) + Value(s[2..])
  {
    ValueOfLast(s, 3);
    ValueOfLast(s[..3], 2);
    assert s[..3][..2] == s[..2];
    ValueOfLast(s[2..], 1);
    ValueOfLast(s[2..][..1], 0);
  }

  /** The valid seasons are those of the years, each with the two digits of the next year. */
  lemma SeasonsAre(s: string)
    ensures ValidSeason(s) <==> IsSeason(s)
  {
    if ValidSeason(s) {
      SeasonHasYear(s);
    }
    if y: nat :| y < 10000 && s == SeasonOf(y) {
      YearHasSeason(y);
    }
  }

  lemma SeasonHasYear(s: string)
    requires ValidSeason(s)
    ensures Value(s[..4]) < 10000 && s == SeasonOf(Value(s[..4]))
  {
    var first, second := s[..4], s[5..];
    FourAreTwoPairs(first);
    PairIsItsValue(second);
    assert s == first + "-" + second;
  }

  lemma FourAreTwoPairs(s: string)
    requires |s| == 4 && AllDigits(s)
    ensures Value(s) < 10000 && s == Pair(Value(s) / 100) + Pair(Value(s) % 100)
  {
    var a, b := Value(s[..2]), Value(s[2..]);
    PairIsItsValue(s[..2]);
    PairIsItsValue(s[2..]);
    ValueOfFour(s);
    HundredsApart(Value(s), a, b);
    assert s == s[..2] + s[2..] == Pair(a) + Pair(b);
  }

  lemma HundredsApart(n: nat, a: nat, b: nat)
    requires n == 100 * a + b && a < 100 && b < 100
    ensures n / 100 == a && n % 100 == b && n < 10000
  {
  }

  lemma YearHasSeason(y: nat)
    requires y < 10000
    ensures ValidSeason(SeasonOf(y))
  {
    var a, b, c := Pair(y / 100), Pair(y % 100), Pair((y + 1) % 100);
    var s := a + b + "-" + c;
    assert s[..4] == a + b && s[5..] == c && s[4] == '-';
    ValueOfPair(y / 100);
    ValueOfPair(y % 100);
    ValueOfPair((y + 1) % 100);
    assert (a + b)[..2] == a && (a + b)[2..] == b;
    ValueOfFour(a + b);
  }

  /** An event id is a season and the numeral of a gameweek from 1 to 38; the other printers add the numeral of a positive entry id, or a group. */
  lemma EventIdsAre(js: Js, f: EventId, id: string)
    requires Faithful(js)
    ensures PrintEvent(js, f) == Some(id)
      <==> IsSeason(f.season) && 1 <= f.gw <= 38 && id == f.season + ":" + Print(f.gw)
  {
    SeasonsAre(f.season);
    assert f.gw <= MAX_SAFE ==> js.show(f.gw) == Print(f.gw);
  }

  lemma SeasonIdsAre(js: Js, f: SeasonId, id: string)
    requires Faithful(js) && f.entryId <= MAX_SAFE
    ensures PrintManagerSeason(js, f) == Some(id)
      <==> IsSeason(f.season) && f.entryId >= 1 && id == f.season + ":" + Print(f.entryId)
  {
    SeasonsAre(f.season);
    assert js.show(f.entryId) == Print(f.entryId);
  }

  lemma GameweekIdsAre(js: Js, f: GameweekId, id: string)
    requires Faithful(js) && f.entryId <= MAX_SAFE
    ensures PrintManagerGameweek(js, f) == Some(id)
      <==> (IsSeason(f.season) && f.entryId >= 1 && 1 <= f.event <= 38
        && id == f.season + ":" + (Print(f.entryId) + ":" + Print(f.event)))
  {
    SeasonsAre(f.season);
    assert js.show(f.entryId) == Print(f.entryId);
    assert f.event <= MAX_SAFE ==> js.show(f.event) == Print(f.event);
  }

  /** Twenty-four characters from 0-9 and a-f. */
  predicate IsGroupId(s: string) {
    |s| == 24 && forall k | 0 <= k < 24 :: s[k] in "0123456789abcdef"
  }

  lemma GroupsAre(s: string)
    ensures ValidGroup(s) <==> IsGroupId(s)
  {
    var hex := "0123456789abcdef";
    forall c: char ensures IsHex(c) <==> c in hex {
      HexIs(c);
    }
  }

  lemma HexIs(c: char)
    ensures IsHex(c) <==> c in "0123456789abcdef"
  {
    var hex := "0123456789abcdef";
    if IsHex(c) {
      var k := if c <= '9' then (c - '0') as int else 10 + (c - 'a') as int;
      assert 0 <= k < 16 && hex[k] == c;
    }
  }

  lemma ResultIdsAre(js: Js, f: ResultId, id: string)
    requires Faithful(js)
    ensures PrintGwResult(js, f) == Some(id)
      <==> (IsGroupId(f.groupId) && IsSeason(f.season) && 1 <= f.gw <= 38
        && id == f.groupId + ":" + (f.season + ":" + Print(f.gw)))
  {
    GroupsAre(f.groupId);
    SeasonsAre(f.season);
    assert f.gw <= MAX_SAFE ==> js.show(f.gw) == Print(f.gw);
  }

  // ---- round trips ----

  /** A safe positive integer is read back from its template string. */
  lemma IntRoundTrip(js: Js, n: nat)
    requires Faithful(js) && 1 <= n <= MAX_SAFE
    ensures AllDigits(js.show(n)) && IntOf(js, js.show(n)) == Some(n)
    ensures ':' !in js.show(n)
    ensures n < 100 ==> ShortDigits(js.show(n))
  {
    ValueOfPrint(n);
    NoColonInDigits(Print(n));
    if n < 100 {
      LengthOfPrint(n);
    }
  }

  /** parse(print(x)) == x */
  lemma EventRoundTrip(js: Js, f: EventId)
    requires Faithful(js) && PrintEvent(js, f).Some?
    ensures ParseEvent(js, PrintEvent(js, f).value) == Some(f)
  {
    NoColonInSeason(f.season);
    IntRoundTrip(js, f.gw);
    SplitOfJoin(f.season, js.show(f.gw));
  }

  lemma ManagerSeasonRoundTrip(js: Js, f: SeasonId)
    requires Faithful(js) && PrintManagerSeason(js, f).Some? && f.entryId <= MAX_SAFE
    ensures ParseManagerSeason(js, PrintManagerSeason(js, f).value) == Some(f)
  {
    NoColonInSeason(f.season);
    IntRoundTrip(js, f.entryId);
    SplitOfJoin(f.season, js.show(f.entryId));
  }

  lemma ManagerGameweekRoundTrip(js: Js, f: GameweekId)
    requires Faithful(js) && PrintManagerGameweek(js, f).Some? && f.entryId <= MAX_SAFE
    ensures ParseManagerGameweek(js, PrintManagerGameweek(js, f).value) == Some(f)
  {
    NoColonInSeason(f.season);
    IntRoundTrip(js, f.entryId);
    IntRoundTrip(js, f.event);
    SplitOfJoin(f.season, js.show(f.entryId) + ":" + js.show(f.event));
    SplitOfJoin(js.show(f.entryId), js.show(f.event));
  }

  lemma GwResultRoundTrip(js: Js, f: ResultId)
    requires Faithful(js) && PrintGwResult(js, f).Some?
    ensures ParseGwResult(js, PrintGwResult(js, f).value) == Some(f)
  {
    NoColonInSeason(f.season);
    IntRoundTrip(js, f.gw);
    SplitOfJoin(f.groupId, f.season + ":" + js.show(f.gw));
    SplitOfJoin(f.season, js.show(f.gw));
  }

  /** The parsers accept exactly what the printers print, and read its fields back. */
  lemma EventParserIsExact(js: Js, id: string, f: EventId)
    requires Faithful(js)
    ensures ParseEvent(js, id) == Some(f) <==> PrintEvent(js, f) == Some(id)
  {
    if PrintEvent(js, f) == Some(id) {
      EventRoundTrip(js, f);
    }
  }

  lemma ManagerSeasonParserIsExact(js: Js, id: string, f: SeasonId)
    requires Faithful(js) && f.entryId <= MAX_SAFE
    ensures ParseManagerSeason(js, id) == Some(f) <==> PrintManagerSeason(js, f) == Some(id)
  {
    if PrintManagerSeason(js, f) == Some(id) {
      ManagerSeasonRoundTrip(js, f);
    }
  }

  lemma ManagerGameweekParserIsExact(js: Js, id: string, f: GameweekId)
    requires Faithful(js) && f.entryId <= MAX_SAFE
    ensures ParseManagerGameweek(js, id) == Some(f) <==> PrintManagerGameweek(js, f) == Some(id)
  {
    if PrintManagerGameweek(js, f) == Some(id) {
      ManagerGameweekRoundTrip(js, f);
    }
  }

  lemma GwResultParserIsExact(js: Js, id: string, f: ResultId)
    requires Faithful(js)
    ensures ParseGwResult(js, id) == Some(f) <==> PrintGwResult(js, f) == Some(id)
  {
    if PrintGwResult(js, f) == Some(id) {
      GwResultRoundTrip(js, f);
    }
  }

  /** Without any bound on the numbers: whatever a parser accepts prints back to itself. */
  lemma AcceptedIdsReprint(js: Js, id: string)
    ensures ParseEvent(js, id).Some? ==> PrintEvent(js, ParseEvent(js, id).value) == Some(id)
    ensures ParseManagerSeason(js, id).Some? ==> PrintManagerSeason(js, ParseManagerSeason(js, id).value) == Some(id)
    ensures ParseManagerGameweek(js, id).Some? ==> PrintManagerGameweek(js, ParseManagerGameweek(js, id).value) == Some(id)
    ensures ParseGwResult(js, id).Some? ==> PrintGwResult(js, ParseGwResult(js, id).value) == Some(id)
  {
  }

  lemma EventPrinterIsInjective(js: Js, a: EventId, b: EventId)
    requires Faithful(js) && PrintEvent(js, a).Some? && PrintEvent(js, a) == PrintEvent(js, b)
    ensures a == b
  {
    EventRoundTrip(js, a);
    EventRoundTrip(js, b);
  }

  /** The other printers are injective too, over safe integers. */
  lemma PrintersAreInjective(js: Js, a: GameweekId, b: GameweekId, c: ResultId, d: ResultId, e: SeasonId, f: SeasonId)
    requires Faithful(js) && a.entryId <= MAX_SAFE && b.entryId <= MAX_SAFE && e.entryId <= MAX_SAFE && f.entryId <= MAX_SAFE
    ensures PrintManagerGameweek(js, a).Some? && PrintManagerGameweek(js, a) == PrintManagerGameweek(js, b) ==> a == b
    ensures PrintGwResult(js, c).Some? && PrintGwResult(js, c) == PrintGwResult(js, d) ==> c == d
    ensures PrintManagerSeason(js, e).Some? && PrintManagerSeason(js, e) == PrintManagerSeason(js, f) ==> e == f
  {
    if PrintManagerGameweek(js, a).Some? && PrintManagerGameweek(js, a) == PrintManagerGameweek(js, b) {
      ManagerGameweekRoundTrip(js, a);
      ManagerGameweekRoundTrip(js, b);
    }
    if PrintGwResult(js, c).Some? && PrintGwResult(js, c) == PrintGwResult(js, d) {
      GwResultRoundTrip(js, c);
      GwResultRoundTrip(js, d);
    }
    if PrintManagerSeason(js, e).Some? && PrintManagerSeason(js, e) == PrintManagerSeason(js, f) {
      ManagerSeasonRoundTrip(js, e);
      ManagerSeasonRoundTrip(js, f);
    }
  }

  /** A season is determined by its first year, across the wrap of a century. */
  lemma SeasonIsItsFirstYear(a: string, b: string)
    requires ValidSeason(a) && ValidSeason(b) && a[..4] == b[..4]
    ensures a == b
    ensures ValidSeason("2099-00")
  {
    TwoDigits(a[5..]);
    TwoDigits(b[5..]);
    assert a == a[..4] + [a[4]] + a[5..] && b == b[..4] + [b[4]] + b[5..];
    CenturyWrap();
  }

  lemma TwoDigits(s: string)
    requires |s| == 2 && AllDigits(s)
    ensures Value(s) == DigitValue(s[0]) * 10 + DigitValue(s[1])
    ensures s == [DigitChar(Value(s) / 10), DigitChar(Value(s) % 10)]
  {
    assert s[..1][..0] == "" && s[..1][0] == s[0];
    assert Value(s[..1]) == DigitValue(s[0]);
    assert Value(s) == DigitValue(s[0]) * 10 + DigitValue(s[1]);
    assert Value(s) / 10 == DigitValue(s[0]) && Value(s) % 10 == DigitValue(s[1]);
    DigitIsItsValue(s[0]);
    DigitIsItsValue(s[1]);
  }

  lemma CenturyWrap()
    ensures ValidSeason("2099-00")
  {
  }
}
