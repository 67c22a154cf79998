/** The orderings offered for the pinned-DAO list: the pinned order, by
    name either way, and by founding date either way with undated DAOs
    last. A comparator's result is a JavaScript number, and the sort reads
    it the way `Array.prototype.sort` does. */
module PinnedDaos {
  import opened Cosmos

  /** `established` is the founding time in milliseconds, when known. */
  datatype DaoCardInfo = DaoCardInfo(coreAddress: string, name: string, established: Option<int>)

  /** The JavaScript numbers a comparator can return here: the differences
      are of integers (indices, millisecond times), so only the infinities
      used as defaults and NaN need modelling besides them. */
  datatype Num = Finite(value: int) | PosInf | NegInf | NaN

  /** JavaScript subtraction. */
  function Sub(x: Num, y: Num): (r: Num)
    ensures r.NaN? <==> x.NaN? || y.NaN? || (x == y && !x.Finite?)
    ensures x.Finite? && y.Finite? ==> r == Finite(x.value - y.value)
  {
    match (x, y)
    case (NaN, _) => NaN
    case (_, NaN) => NaN
    case (Finite(a), Finite(b)) => Finite(a - b)
    case (PosInf, PosInf) => NaN
    case (NegInf, NegInf) => NaN
    case (PosInf, _) => PosInf
    case (NegInf, _) => NegInf
    case (Finite(_), PosInf) => NegInf
    case (Finite(_), NegInf) => PosInf
  }

  /** How the sort reads a comparator result: negative puts the left
      element first, positive the right one, and zero and NaN keep them as
      they are. */
  function Order(v: Num): (o: int)
    ensures -1 <= o <= 1
    ensures o < 0 <==> v == NegInf || (v.Finite? && v.value < 0)
    ensures o > 0 <==> v == PosInf || (v.Finite? && v.value > 0)
  {
    match v
    case NaN => 0
    case PosInf => 1
    case NegInf => -1
    case Finite(n) => if n < 0 then -1 else if n > 0 then 1 else 0
  }

  function Sign(n: int): int
  {
    if n < 0 then -1 else if n > 0 then 1 else 0
  }

  /** `indexOf`: the first position of `d`, or -1. */
  function IndexOf(list: seq<DaoCardInfo>, d: DaoCardInfo): (r: int)
    ensures -1 <= r < |list|
    ensures r == -1 <==> d !in list
    ensures r >= 0 ==> list[r] == d && d !in list[..r]
  {
    if list == [] then -1
    else if list[0] == d then 0
    else
      var r := IndexOf(list[1..], d);
      assert list == [list[0]] + list[1..];
      if r == -1 then -1
      else
        assert list[..r + 1] == [list[0]] + list[1..][..r];
        r + 1
  }

  /** Locale-aware comparison of two strings, as an ordering: zero exactly
      for equal strings, and swapping the arguments flips the sign. */
  ghost predicate IsOrder(cmp: (string, string) -> int)
  {
    (forall x, y :: cmp(x, y) == 0 <==> x == y)
    && (forall x, y :: Sign(cmp(x, y)) == -Sign(cmp(y, x)))
  }

  function LowerChar(c: char): char
  {
    if 'A' <= c <= 'Z' then (c as int + 32) as char else c
  }

  function UpperChar(c: char): char
  {
    if 'a' <= c <= 'z' then (c as int - 32) as char else c
  }

  /** Lower-casing (of the ASCII letters). */
  function Lower(s: string): (r: string)
    ensures |r| == |s| && forall i :: 0 <= i < |s| ==> r[i] == LowerChar(s[i])
  {
    seq(|s|, i requires 0 <= i < |s| => LowerChar(s[i]))
  }

  /** Upper-casing (of the ASCII letters). */
  function Upper(s: string): (r: string)
    ensures |r| == |s| && forall i :: 0 <= i < |s| ==> r[i] == UpperChar(s[i])
  {
    seq(|s|, i requires 0 <= i < |s| => UpperChar(s[i]))
  }

  /** The name comparison as written: the left name lower-cased against the
      right name upper-cased. */
  function NameOrderAsWritten(cmp: (string, string) -> int, a: DaoCardInfo, b: DaoCardInfo): int
  {
    cmp(Lower(a.name), Upper(b.name))
  }

  /** A DAO named "a" does not compare equal to itself. */
  lemma NameOrderAsWrittenNotReflexive(cmp: (string, string) -> int, d: DaoCardInfo)
    requires IsOrder(cmp)
    requires d.name == "a"
    ensures NameOrderAsWritten(cmp, d, d) != 0
  {
    assert Lower(d.name)[0] == 'a';
    assert Upper(d.name)[0] == 'A';
  }

  /** DAOs named "a" and "A" each sort before the other (or each after). */
  lemma NameOrderAsWrittenNotAntisymmetric(cmp: (string, string) -> int, a: DaoCardInfo, b: DaoCardInfo)
    requires IsOrder(cmp)
    requires a.name == "a" && b.name == "A"
    ensures Sign(NameOrderAsWritten(cmp, a, b)) == Sign(NameOrderAsWritten(cmp, b, a)) != 0
  {
    assert Lower(a.name) == Lower(b.name) by {
      assert Lower(a.name)[0] == Lower(b.name)[0];
    }
    assert Upper(a.name) == Upper(b.name) by {
      assert Upper(a.name)[0] == Upper(b.name)[0];
    }
    assert Lower(a.name)[0] != Upper(b.name)[0];
  }

  /** The case-insensitive name comparison evidently intended: both names
      lower-cased. */
  function NameOrder(cmp: (string, string) -> int, a: DaoCardInfo, b: DaoCardInfo): (r: int)
    requires IsOrder(cmp)
    ensures r == 0 <==> Lower(a.name) == Lower(b.name)
    ensures Sign(r) == -Sign(cmp(Lower(b.name), Lower(a.name)))
  {
    cmp(Lower(a.name), Lower(b.name))
  }

  datatype SortKind = Custom | AToZ | ZToA | Newest | Oldest

  /** The dropdown's options, in order. */
  const SortKinds: seq<SortKind> := [Custom, AToZ, ZToA, Newest, Oldest]

  function Label(k: SortKind): string
  {
    match k
    case Custom => "Custom"
    case AToZ => "A → Z"
    case ZToA => "Z → A"
    case Newest => "Newest"
    case Oldest => "Oldest"
  }

  /** Every ordering is offered exactly once, under its own label. */
  lemma EveryOrderingOfferedOnce(k: SortKind)
    ensures |SortKinds| == 5
    ensures exists i :: 0 <= i < |SortKinds| && SortKinds[i] == k
    ensures forall i, j :: 0 <= i < j < |SortKinds| ==> Label(SortKinds[i]) != Label(SortKinds[j])
  {
    assert SortKinds[0] == Custom && SortKinds[1] == AToZ && SortKinds[2] == ZToA;
    assert SortKinds[3] == Newest && SortKinds[4] == Oldest;
  }

  function TimeOr(d: DaoCardInfo, missing: Num): Num
  {
    if d.established.Some? then Finite(d.established.value) else missing
  }

  /** The comparator of an option. `pinned` is the list the options were
      built from: the pinned DAOs, or the empty list while they load. */
  function Compare(kind: SortKind, pinned: seq<DaoCardInfo>, cmp: (string, string) -> int,
                   a: DaoCardInfo, b: DaoCardInfo): Num
    requires IsOrder(cmp)
  {
    match kind
    case Custom => Finite(IndexOf(pinned, a) - IndexOf(pinned, b))
    case AToZ => Finite(NameOrder(cmp, a, b))
    case ZToA => Finite(NameOrder(cmp, b, a))
    case Newest => Sub(TimeOr(b, NegInf), TimeOr(a, NegInf))
    case Oldest => Sub(TimeOr(a, PosInf), TimeOr(b, PosInf))
  }

  predicate NoDuplicates(list: seq<DaoCardInfo>)
  {
    forall i, j :: 0 <= i < j < |list| ==> list[i] != list[j]
  }

  /** Custom keeps the pinned order: of two pinned DAOs, the one pinned
      earlier sorts first. */
  lemma CustomFollowsPinnedOrder(pinned: seq<DaoCardInfo>, cmp: (string, string) -> int, i: nat, j: nat)
    requires IsOrder(cmp)
    requires NoDuplicates(pinned)
    requires i < |pinned| && j < |pinned|
    ensures Order(Compare(Custom, pinned, cmp, pinned[i], pinned[j])) == Sign(i - j)
  {
    IndexOfPosition(pinned, i);
    IndexOfPosition(pinned, j);
  }

  lemma IndexOfPosition(list: seq<DaoCardInfo>, i: nat)
    requires NoDuplicates(list)
    requires i < |list|
    ensures IndexOf(list, list[i]) == i
  {
  }

  /** While the pinned DAOs load, the options are built over the empty list
      and Custom ties everything. */
  lemma CustomWhileLoadingTies(cmp: (string, string) -> int, a: DaoCardInfo, b: DaoCardInfo)
    requires IsOrder(cmp)
    ensures Order(Compare(Custom, [], cmp, a, b)) == 0
  {
  }

  /** Z → A is A → Z with the arguments swapped. */
  lemma ZToAReversesAToZ(pinned: seq<DaoCardInfo>, cmp: (string, string) -> int, a: DaoCardInfo, b: DaoCardInfo)
    requires IsOrder(cmp)
    ensures Compare(ZToA, pinned, cmp, a, b) == Compare(AToZ, pinned, cmp, b, a)
    ensures Order(Compare(ZToA, pinned, cmp, a, b)) == -Order(Compare(AToZ, pinned, cmp, a, b))
  {
  }

  /** Newest: the later founding first; an undated DAO after every dated
      one; two undated DAOs tie (their difference is NaN). */
  lemma NewestOrder(pinned: seq<DaoCardInfo>, cmp: (string, string) -> int, a: DaoCardInfo, b: DaoCardInfo)
    requires IsOrder(cmp)
    ensures a.established.Some? && b.established.Some? ==>
      Order(Compare(Newest, pinned, cmp, a, b)) == Sign(b.established.value - a.established.value)
    ensures a.established.None? && b.established.Some? ==> Order(Compare(Newest, pinned, cmp, a, b)) == 1
    ensures a.established.Some? && b.established.None? ==> Order(Compare(Newest, pinned, cmp, a, b)) == -1
    ensures a.established.None? && b.established.None? ==> Compare(Newest, pinned, cmp, a, b) == NaN
  {
  }

  /** Oldest: the earlier founding first; undated DAOs last again. */
  lemma OldestOrder(pinned: seq<DaoCardInfo>, cmp: (string, string) -> int, a: DaoCardInfo, b: DaoCardInfo)
    requires IsOrder(cmp)
    ensures a.established.Some? && b.established.Some? ==>
      Order(Compare(Oldest, pinned, cmp, a, b)) == Sign(a.established.value - b.established.value)
    ensures a.established.None? && b.established.Some? ==> Order(Compare(Oldest, pinned, cmp, a, b)) == 1
    ensures a.established.Some? && b.established.None? ==> Order(Compare(Oldest, pinned, cmp, a, b)) == -1
    ensures a.established.None? && b.established.None? ==> Compare(Oldest, pinned, cmp, a, b) == NaN
  {
  }

  /** Every option is a consistent comparator: a DAO ties with itself and
      swapping two DAOs flips the order. */
  lemma {:induction false} CompareConsistent(kind: SortKind, pinned: seq<DaoCardInfo>, cmp: (string, string) -> int,
                                             a: DaoCardInfo, b: DaoCardInfo)
    requires IsOrder(cmp)
    ensures Order(Compare(kind, pinned, cmp, a, a)) == 0
    ensures Order(Compare(kind, pinned, cmp, a, b)) == -Order(Compare(kind, pinned, cmp, b, a))
  {
    match kind
    case AToZ =>
      assert Sign(NameOrder(cmp, a, b)) == -Sign(NameOrder(cmp, b, a));
    case ZToA =>
      assert Sign(NameOrder(cmp, b, a)) == -Sign(NameOrder(cmp, a, b));
    case _ =>
  }
}
