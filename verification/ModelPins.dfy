/** Which model a pin moves to: ids compared by the numbers in them, and the newest of a family picked out. */
module ModelPins {
  import opened Prelude

  predicate IsDigit(c: char) { '0' <= c <= '9' }

  predicate AllDigits(s: string) { forall i :: 0 <= i < |s| ==> IsDigit(s[i]) }

  /** How much of the end of an id is a dated snapshot: `-YYYYMMDD`, or `-YYYY-MM-DD`. */
  function DateSuffix(id: string): (n: nat)
    ensures n <= |id|
  {
    var n := |id|;
    if n >= 9 && id[n - 9] == '-' && AllDigits(id[n - 8..]) then 9
    else if n >= 11 && id[n - 11] == '-' && AllDigits(id[n - 10..n - 6]) && id[n - 6] == '-'
         && AllDigits(id[n - 5..n - 3]) && id[n - 3] == '-' && AllDigits(id[n - 2..]) then 11
    else 0
  }

  function Digit(c: char): nat
    requires IsDigit(c)
  {
    c as int - '0' as int
  }

  /** The numbers spelled by the runs of digits; `open` is the number being read, if one is. */
  function Numbers(s: string, open: Option<nat>): seq<nat> {
    if s == "" then (if open.Some? then [open.value] else [])
    else if IsDigit(s[0]) then Numbers(s[1..], Some((if open.Some? then 10 * open.value else 0) + Digit(s[0])))
    else (if open.Some? then [open.value] else []) + Numbers(s[1..], None)
  }

  function ParseModelVersion(id: string): seq<nat> { Numbers(id[..|id| - DateSuffix(id)], None) }

  /** A number written out. */
  function Decimal(n: nat): string {
    if n < 10 then [('0' as int + n) as char] else Decimal(n / 10) + [('0' as int + n % 10) as char]
  }

  lemma {:induction false} ReadsDigits(n: nat, rest: string)
    ensures Numbers(Decimal(n) + rest, None) == Numbers(rest, Some(n))
  {
    var d := [('0' as int + n % 10) as char];
    if n < 10 {
      assert (d + rest)[1..] == rest;
    } else {
      ReadsDigits(n / 10, d + rest);
      assert Decimal(n) + rest == Decimal(n / 10) + (d + rest);
      assert (d + rest)[1..] == rest;
    }
  }

  /** A number written in an id is read back as itself, up to the next character that is no digit. */
  lemma ReadsNumber(n: nat, rest: string)
    requires rest == "" || !IsDigit(rest[0])
    ensures Numbers(Decimal(n) + rest, None) == [n] + Numbers(rest, None)
  {
    ReadsDigits(n, rest);
  }

  /** Words between numbers: no digit in them. */
  predicate Wordy(s: string) { forall c <- s :: c !in "0123456789" }

  lemma DigitsAre(c: char)
    ensures IsDigit(c) <==> c in "0123456789"
  {
    var s := "0123456789";
    if IsDigit(c) {
      assert s[c as int - '0' as int] == c;
    }
  }

  lemma {:induction false} SkipsWords(words: string, rest: string)
    requires Wordy(words)
    ensures Numbers(words + rest, None) == Numbers(rest, None)
  {
    if words == "" {
      assert words + rest == rest;
    } else {
      assert words[0] in words && forall c <- words[1..] :: c in words;
      DigitsAre(words[0]);
      assert (words + rest)[1..] == words[1..] + rest;
      SkipsWords(words[1..], rest);
      assert [] + Numbers(words[1..] + rest, None) == Numbers(words[1..] + rest, None);
    }
  }

  /** An id spelled out: each number, and the words after it. */
  function Spelled(parts: seq<(nat, string)>): string {
    if parts == [] then "" else Decimal(parts[0].0) + parts[0].1 + Spelled(parts[1..])
  }

  function NumbersIn(parts: seq<(nat, string)>): seq<nat> {
    if parts == [] then [] else [parts[0].0] + NumbersIn(parts[1..])
  }

  /**
  An id is read as exactly the numbers in it, in order, whatever words, dots, hyphens or other characters stand before,
  between and after them.
  */
  lemma {:induction false} ReadsVersion(words: string, parts: seq<(nat, string)>)
    requires Wordy(words) && forall i :: 0 <= i < |parts| ==> Wordy(parts[i].1)
    requires forall i :: 0 <= i < |parts| - 1 ==> parts[i].1 != ""
    ensures Numbers(words + Spelled(parts), None) == NumbersIn(parts)
    decreases |parts|
  {
    SkipsWords(words, Spelled(parts));
    if parts != [] {
      var n, after, rest := parts[0].0, parts[0].1, parts[1..];
      assert Spelled(parts) == Decimal(n) + (after + Spelled(rest));
      if after + Spelled(rest) != "" {
        assert after != "" by { assert rest == [] || parts[0].1 != ""; }
        assert after[0] in after;
        DigitsAre(after[0]);
        assert (after + Spelled(rest))[0] == after[0];
      }
      ReadsNumber(n, after + Spelled(rest));
      assert Wordy(parts[0].1);
      assert forall i :: 0 <= i < |rest| ==> rest[i] == parts[i + 1];
      ReadsVersion(after, rest);
    }
  }

  // --------------------------------------------------------------- comparison

  /** A version's number at a position, and -1 past its end. */
  function At(v: seq<nat>, i: nat): int { if i < |v| then v[i] else -1 }

  /** The first difference between positions `i` and `n`, or 0. */
  function Difference(a: seq<nat>, b: seq<nat>, i: nat, n: nat): int
    decreases n - i
  {
    if i >= n then 0 else if At(a, i) != At(b, i) then At(a, i) - At(b, i) else Difference(a, b, i + 1, n)
  }

  type Compare = (string, string) -> int

  function ByVersion(a: string, b: string, locale: Compare): int {
    var va, vb := ParseModelVersion(a), ParseModelVersion(b);
    var d := Difference(va, vb, 0, Max(|va|, |vb|));
    if d != 0 then d else locale(a, b)
  }

  function VersionOrder(locale: Compare): Compare { (a, b) => ByVersion(a, b, locale) }

  method CompareModelVersions(a: string, b: string, locale: Compare) returns (r: int)
    ensures r == ByVersion(a, b, locale)
  {
    var va, vb := ParseModelVersion(a), ParseModelVersion(b);
    var n := Max(|va|, |vb|);
    var i := 0;
    while i < n
      invariant 0 <= i <= n && Difference(va, vb, 0, n) == Difference(va, vb, i, n)
    {
      var diff := At(va, i) - At(vb, i);
      if diff != 0 { return diff; }
      i := i + 1;
    }
    r := locale(a, b);
  }

  /** A comparison whose signs agree with one strict order of all strings. */
  ghost predicate TotalOrder(compare: Compare) {
    && (forall a, b :: compare(a, b) == 0 <==> a == b)
    && (forall a, b :: compare(a, b) < 0 <==> compare(b, a) > 0)
    && (forall a, b, c :: compare(a, b) < 0 && compare(b, c) < 0 ==> compare(a, c) < 0)
  }

  lemma {:induction false} Mirrored(a: seq<nat>, b: seq<nat>, i: nat, n: nat)
    ensures Difference(a, b, i, n) == -Difference(b, a, i, n)
    decreases n - i
  {
    if i < n { Mirrored(a, b, i + 1, n); }
  }

  /** Looking further than both lengths finds nothing more: padding makes versions of all lengths comparable. */
  lemma {:induction false} Further(a: seq<nat>, b: seq<nat>, i: nat, n: nat)
    requires Max(|a|, |b|) <= n && i <= Max(|a|, |b|)
    ensures Difference(a, b, i, n) == Difference(a, b, i, Max(|a|, |b|))
    decreases n - i
  {
    if i < Max(|a|, |b|) { Further(a, b, i + 1, n); } else { PastEnd(a, b, i, n); }
  }

  lemma {:induction false} PastEnd(a: seq<nat>, b: seq<nat>, i: nat, n: nat)
    requires Max(|a|, |b|) <= i
    ensures Difference(a, b, i, n) == 0
    decreases n - i
  {
    if i < n { PastEnd(a, b, i + 1, n); }
  }

  lemma {:induction false} Chained(a: seq<nat>, b: seq<nat>, c: seq<nat>, i: nat, n: nat)
    ensures var (ab, bc, ac) := (Difference(a, b, i, n), Difference(b, c, i, n), Difference(a, c, i, n));
      && (ab <= 0 && bc <= 0 ==> ac <= 0)
      && (ab <= 0 && bc <= 0 && (ab < 0 || bc < 0) ==> ac < 0)
      && (ab == 0 && bc == 0 ==> ac == 0)
    decreases n - i
  {
    if i < n { Chained(a, b, c, i + 1, n); }
  }

  /** If `localeCompare` orders all strings, so does comparing by version with it as the tie-break. */
  lemma VersionOrderIsTotal(locale: Compare)
    requires TotalOrder(locale)
    ensures TotalOrder(VersionOrder(locale))
  {
    forall a, b ensures ByVersion(a, b, locale) == 0 <==> a == b {
      var va := ParseModelVersion(a);
      Mirrored(va, va, 0, |va|);
      assert locale(a, b) == 0 <==> a == b;
    }
    forall a, b ensures ByVersion(a, b, locale) < 0 <==> ByVersion(b, a, locale) > 0 {
      var va, vb := ParseModelVersion(a), ParseModelVersion(b);
      Mirrored(va, vb, 0, Max(|va|, |vb|));
      assert Max(|va|, |vb|) == Max(|vb|, |va|);
      assert locale(a, b) < 0 <==> locale(b, a) > 0;
    }
    forall a, b, c | ByVersion(a, b, locale) < 0 && ByVersion(b, c, locale) < 0 ensures ByVersion(a, c, locale) < 0 {
      var va, vb, vc := ParseModelVersion(a), ParseModelVersion(b), ParseModelVersion(c);
      var n := Max(|va|, Max(|vb|, |vc|));
      Further(va, vb, 0, n);
      Further(vb, vc, 0, n);
      Further(va, vc, 0, n);
      Chained(va, vb, vc, 0, n);
      assert locale(a, b) < 0 && locale(b, c) < 0 ==> locale(a, c) < 0;
    }
  }

  /** A date in either spelling: eight digits, or four, two and two with hyphens between. */
  predicate IsStamp(stamp: string) {
    || (|stamp| == 8 && AllDigits(stamp))
    || (|stamp| == 10 && AllDigits(stamp[..4]) && stamp[4] == '-' && AllDigits(stamp[5..7]) && stamp[7] == '-'
        && AllDigits(stamp[8..]))
  }

  lemma StampIsSuffix(base: string, stamp: string)
    requires IsStamp(stamp)
    ensures DateSuffix(base + "-" + stamp) == |stamp| + 1
  {
    var id := base + "-" + stamp;
    var n := |id|;
    if |stamp| == 8 {
      assert id[n - 8..] == stamp && id[n - 9] == '-';
    } else {
      assert id[n - 10..n - 6] == stamp[..4] && id[n - 5..n - 3] == stamp[5..7] && id[n - 2..] == stamp[8..];
      assert id[n - 11] == '-' && id[n - 6] == '-' && id[n - 3] == '-';
      assert id[n - 8..][2] == '-';
    }
  }

  lemma StampParts(id: string, stamp: string)
    requires |id| >= 10 && stamp == id[|id| - 10..]
    ensures stamp[..4] == id[|id| - 10..|id| - 6] && stamp[4] == id[|id| - 6]
    ensures stamp[5..7] == id[|id| - 5..|id| - 3] && stamp[7] == id[|id| - 3] && stamp[8..] == id[|id| - 2..]
  {}

  /** Nothing but a stamp is ever dropped. */
  lemma OnlyStampsDropped(id: string)
    ensures DateSuffix(id) != 0 ==> exists base, stamp :: IsStamp(stamp) && id == base + "-" + stamp
  {
    var n := |id| - DateSuffix(id);
    if DateSuffix(id) != 0 {
      var base, stamp := id[..n], id[n + 1..];
      assert id == base + "-" + stamp;
      if |stamp| == 10 {
        StampParts(id, stamp);
      } else {
        assert stamp == id[|id| - 8..];
      }
      assert IsStamp(stamp);
    }
  }

  /**
  A dated snapshot has the numbers of the id before its stamp, whichever way the stamp is spelled, and so the version of
  the id it is a snapshot of unless that is dated itself.
  */
  lemma SnapshotSameVersion(base: string, stamp: string)
    requires IsStamp(stamp)
    ensures ParseModelVersion(base + "-" + stamp) == Numbers(base, None)
    ensures DateSuffix(base) == 0 ==> ParseModelVersion(base + "-" + stamp) == ParseModelVersion(base)
  {
    var id := base + "-" + stamp;
    StampIsSuffix(base, stamp);
    assert id[..|id| - (|stamp| + 1)] == base && base[..|base|] == base;
  }

  /** Of two versions that agree up to a position both have, the one with the smaller number there is the older. */
  lemma {:induction false} FirstDifferenceDecides(a: seq<nat>, b: seq<nat>, i: nat, k: nat)
    requires i <= k < |a| && k < |b| && a[..k] == b[..k] && a[k] < b[k]
    ensures Difference(a, b, i, Max(|a|, |b|)) < 0
    decreases k - i
  {
    if i < k {
      assert a[i] == a[..k][i] == b[..k][i] == b[i];
      FirstDifferenceDecides(a, b, i + 1, k);
    }
  }

  /** A run of numbers is older than any longer run that begins with it. */
  lemma {:induction false} PrefixIsOlder(a: seq<nat>, b: seq<nat>, i: nat)
    requires a < b && i <= |a|
    ensures Difference(a, b, i, |b|) < 0
    decreases |a| - i
  {
    if i < |a| { PrefixIsOlder(a, b, i + 1); }
  }

  // ------------------------------------------------------------------ picking

  function Filter(ids: seq<string>, family: string -> bool): seq<string> {
    if ids == [] then [] else
      var last := ids[|ids| - 1];
      Filter(ids[..|ids| - 1], family) + if family(last) then [last] else []
  }

  /** `candidates.reduce(...)`. */
  function Best(candidates: seq<string>, compare: Compare): string
    requires candidates != []
  {
    if |candidates| == 1 then candidates[0] else
      var best, id := Best(candidates[..|candidates| - 1], compare), candidates[|candidates| - 1];
      if compare(id, best) > 0 then id else best
  }

  function PickLatestModel(ids: seq<string>, family: string -> bool, compare: Compare): Option<string> {
    var candidates := Filter(ids, family);
    if candidates == [] then None else Some(Best(candidates, compare))
  }

  lemma {:induction false} FilterHolds(ids: seq<string>, family: string -> bool, id: string)
    ensures id in Filter(ids, family) <==> id in ids && family(id)
  {
    if ids != [] {
      FilterHolds(ids[..|ids| - 1], family, id);
      assert ids == ids[..|ids| - 1] + [ids[|ids| - 1]];
    }
  }

  lemma {:induction false} BestIsGreatest(candidates: seq<string>, compare: Compare)
    requires TotalOrder(compare) && candidates != []
    ensures Best(candidates, compare) in candidates
    ensures forall id <- candidates :: compare(id, Best(candidates, compare)) <= 0
  {
    if |candidates| > 1 {
      var n := |candidates| - 1;
      BestIsGreatest(candidates[..n], compare);
      var best, last := Best(candidates[..n], compare), candidates[n];
      assert candidates == candidates[..n] + [last];
      forall id | id in candidates ensures compare(id, Best(candidates, compare)) <= 0 {
        if id in candidates[..n] { assert compare(id, best) <= 0; }
      }
    }
  }

  /** The pick: nothing when no id is of the family, and otherwise the one member no other is newer than. */
  lemma PickIsNewest(ids: seq<string>, family: string -> bool, locale: Compare)
    requires TotalOrder(locale)
    ensures var (pick, order) := (PickLatestModel(ids, family, VersionOrder(locale)), VersionOrder(locale));
      && (pick == None <==> forall id <- ids :: !family(id))
      && forall m :: pick == Some(m) <==>
           m in ids && family(m) && forall id <- ids :: family(id) ==> order(id, m) <= 0
  {
    hide VersionOrder, Filter, Best;
    var order, candidates := VersionOrder(locale), Filter(ids, family);
    VersionOrderIsTotal(locale);
    forall id ensures id in candidates <==> id in ids && family(id) { FilterHolds(ids, family, id); }
    if candidates == [] {
      assert forall id <- ids :: id !in candidates;
    } else {
      assert candidates[0] in candidates;
      BestIsGreatest(candidates, order);
      NewestUnique(candidates, order);
    }
  }

  lemma NewestUnique(candidates: seq<string>, compare: Compare)
    requires TotalOrder(compare) && candidates != []
    ensures forall m :: m in candidates && (forall id <- candidates :: compare(id, m) <= 0) ==>
      m == Best(candidates, compare)
  {
    BestIsGreatest(candidates, compare);
    hide Best;
    var best := Best(candidates, compare);
    forall m | m in candidates && forall id <- candidates :: compare(id, m) <= 0 ensures m == best {
      assert compare(best, m) <= 0 && compare(m, best) <= 0;
    }
  }

  /** So the catalog's order and its repetitions do not matter, and ids no newer than the pick never move it. */
  lemma PickIgnoresOrder(ids: seq<string>, more: seq<string>, family: string -> bool, locale: Compare)
    requires TotalOrder(locale)
    requires var order := VersionOrder(locale);
      forall id <- more :: family(id) && id !in ids ==> exists m <- ids :: family(m) && order(id, m) < 0
    requires forall id <- ids :: id in more
    ensures PickLatestModel(more, family, VersionOrder(locale)) == PickLatestModel(ids, family, VersionOrder(locale))
  {
    var order := VersionOrder(locale);
    PickIsNewest(ids, family, locale);
    PickIsNewest(more, family, locale);
    VersionOrderIsTotal(locale);
    hide VersionOrder, PickLatestModel;
    var pick := PickLatestModel(ids, family, order);
    if pick.Some? {
      var best := pick.value;
      forall id | id in more && family(id) ensures order(id, best) <= 0 {
        if id !in ids {
          var m :| m in ids && family(m) && order(id, m) < 0;
          assert order(m, best) <= 0;
        }
      }
    }
  }
}
