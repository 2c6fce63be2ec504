/**
 * Batch identifiers (services/batcher/src/index.ts, computeBatchId): the digest of
 * the sorted, '|'-joined "partition:offset" renderings of a batch.
 */
module BatchId {
  import opened Common

  /** Where a batched event came from. */
  datatype Source = Source(partition: nat, offset: nat)

  /** Decimal rendering of a non-negative number, without leading zeros. */
  function Decimal(n: nat): string {
    if n < 10 then ["0123456789"[n]] else Decimal(n / 10) + ["0123456789"[n % 10]]
  }

  function Render(s: Source): string {
    Decimal(s.partition) + [':'] + Decimal(s.offset)
  }

  function RenderAll(sources: seq<Source>): seq<string> {
    if sources == [] then [] else [Render(sources[0])] + RenderAll(sources[1..])
  }

  /** Order of strings by code unit, the default order of Array.prototype.sort. */
  predicate LexLe(a: string, b: string) {
    a == [] || (b != [] && (a[0] < b[0] || (a[0] == b[0] && LexLe(a[1..], b[1..]))))
  }

  function InsertSorted(x: string, ss: seq<string>): seq<string> {
    if ss == [] || LexLe(x, ss[0]) then [x] + ss else [ss[0]] + InsertSorted(x, ss[1..])
  }

  function SortStrings(ss: seq<string>): seq<string> {
    if ss == [] then [] else InsertSorted(ss[0], SortStrings(ss[1..]))
  }

  function Join(ss: seq<string>, separator: char): string {
    if ss == [] then ""
    else if |ss| == 1 then ss[0]
    else ss[0] + [separator] + Join(ss[1..], separator)
  }

  function Fingerprint(sources: seq<Source>): string {
    Join(SortStrings(RenderAll(sources)), '|')
  }

  function ComputeBatchId(sources: seq<Source>, sha256: string -> string): string {
    sha256(Fingerprint(sources))
  }

  // ---------------------------------------------------------------------------
  // The sorted form depends on the multiset alone
  // ---------------------------------------------------------------------------

  ghost predicate Sorted(ss: seq<string>) {
    forall i, j :: 0 <= i < j < |ss| ==> LexLe(ss[i], ss[j])
  }

  lemma LexTotal(a: string, b: string)
    ensures LexLe(a, b) || LexLe(b, a)
    ensures LexLe(a, a)
  {
  }

  lemma {:induction false} LexAntisymmetric(a: string, b: string)
    requires LexLe(a, b) && LexLe(b, a)
    ensures a == b
  {
    if a != [] && b != [] {
      LexAntisymmetric(a[1..], b[1..]);
      assert a == [a[0]] + a[1..] && b == [b[0]] + b[1..];
    }
  }

  lemma {:induction false} LexTransitive(a: string, b: string, c: string)
    requires LexLe(a, b) && LexLe(b, c)
    ensures LexLe(a, c)
  {
    if a != [] && a[0] == b[0] == c[0] {
      LexTransitive(a[1..], b[1..], c[1..]);
    }
  }

  lemma {:induction false} InsertSortedIsSorted(x: string, ss: seq<string>)
    requires Sorted(ss)
    ensures Sorted(InsertSorted(x, ss))
    ensures multiset(InsertSorted(x, ss)) == multiset{x} + multiset(ss)
  {
    if ss == [] {
    } else if LexLe(x, ss[0]) {
      forall y <- ss ensures LexLe(x, y) {
        LexTotal(ss[0], y);
        LexTransitive(x, ss[0], y);
      }
    } else {
      InsertSortedIsSorted(x, ss[1..]);
      assert ss == [ss[0]] + ss[1..];
      var r := InsertSorted(x, ss[1..]);
      forall y <- r ensures LexLe(ss[0], y) {
        LexTotal(ss[0], x);
        assert y in multiset(r);
      }
    }
  }

  lemma {:induction false} SortStringsSorts(ss: seq<string>)
    ensures Sorted(SortStrings(ss)) && multiset(SortStrings(ss)) == multiset(ss)
  {
    if ss != [] {
      SortStringsSorts(ss[1..]);
      InsertSortedIsSorted(ss[0], SortStrings(ss[1..]));
      assert ss == [ss[0]] + ss[1..];
    }
  }

  /** Any two sorted arrangements of the same strings are the same sequence. */
  lemma {:induction false} SortedFormIsUnique(a: seq<string>, b: seq<string>)
    requires Sorted(a) && Sorted(b) && multiset(a) == multiset(b)
    ensures a == b
  {
    if a == [] {
      assert |multiset(a)| == 0;
    } else {
      assert a[0] in multiset(b);
      SortedHeadIsLeast(a, b[0]) by { assert b[0] in multiset(b); assert b[0] in multiset(a); }
      SortedHeadIsLeast(b, a[0]);
      LexAntisymmetric(a[0], b[0]);
      MultisetTail(a);
      MultisetTail(b);
      SortedFormIsUnique(a[1..], b[1..]);
      assert a == [a[0]] + a[1..] && b == [b[0]] + b[1..];
    }
  }

  lemma SortedHeadIsLeast(ss: seq<string>, x: string)
    requires Sorted(ss) && x in ss
    ensures LexLe(ss[0], x)
  {
    LexTotal(ss[0], ss[0]);
  }

  lemma MultisetTail<T>(xs: seq<T>)
    requires xs != []
    ensures multiset(xs[1..]) == multiset(xs) - multiset{xs[0]}
  {
    assert xs == [xs[0]] + xs[1..];
  }

  // ---------------------------------------------------------------------------
  // The rendering can be decoded
  // ---------------------------------------------------------------------------

  lemma DecimalIsDigits(n: nat)
    ensures Decimal(n) != [] && forall c <- Decimal(n) :: '0' <= c <= '9'
  {
  }

  lemma DigitInjective(m: nat, n: nat)
    requires m < 10 && n < 10 && "0123456789"[m] == "0123456789"[n]
    ensures m == n
  {
  }

  lemma {:induction false} DecimalInjective(m: nat, n: nat)
    requires Decimal(m) == Decimal(n)
    ensures m == n
  {
    var a, b := Decimal(m), Decimal(n);
    DecimalIsDigits(m / 10);
    DecimalIsDigits(n / 10);
    assert Last(a) == "0123456789"[m % 10] && Last(b) == "0123456789"[n % 10];
    DigitInjective(m % 10, n % 10);
    assert |a| == 1 <==> m < 10;
    assert |b| == 1 <==> n < 10;
    if m >= 10 {
      assert Front(a) == Decimal(m / 10) && Front(b) == Decimal(n / 10);
      DecimalInjective(m / 10, n / 10);
    }
  }

  /** Text is cut in one way at the first occurrence of a separator. */
  lemma FirstCutIsUnique(a: string, x: string, b: string, y: string, separator: char)
    requires separator !in a && separator !in b
    requires a + [separator] + x == b + [separator] + y
    ensures a == b && x == y
  {
    var s := a + [separator] + x;
    assert s[|a|] == separator && s[|b|] == separator;
    assert forall k :: 0 <= k < |a| ==> s[k] == a[k] && s[k] != separator;
    assert forall k :: 0 <= k < |b| ==> s[k] == b[k] && s[k] != separator;
    assert a == s[..|a|] && b == s[..|b|];
    assert x == s[|a| + 1..] && y == s[|b| + 1..];
  }

  lemma RenderInjective(s: Source, t: Source)
    requires Render(s) == Render(t)
    ensures s == t
  {
    DecimalIsDigits(s.partition);
    DecimalIsDigits(t.partition);
    FirstCutIsUnique(Decimal(s.partition), Decimal(s.offset), Decimal(t.partition), Decimal(t.offset), ':');
    DecimalInjective(s.partition, t.partition);
    DecimalInjective(s.offset, t.offset);
  }

  lemma RenderHasNoBar(s: Source)
    ensures Render(s) != [] && '|' !in Render(s)
  {
    DecimalIsDigits(s.partition);
    DecimalIsDigits(s.offset);
  }

  ghost predicate Joinable(ss: seq<string>, separator: char) {
    forall s <- ss :: s != [] && separator !in s
  }

  lemma {:induction false} JoinInjective(a: seq<string>, b: seq<string>, separator: char)
    requires Joinable(a, separator) && Joinable(b, separator)
    requires Join(a, separator) == Join(b, separator)
    ensures a == b
  {
    JoinShape(a, separator);
    JoinShape(b, separator);
    if |a| > 1 && |b| > 1 {
      FirstCutIsUnique(a[0], Join(a[1..], separator), b[0], Join(b[1..], separator), separator);
      assert forall s <- a[1..] :: s in a;
      assert forall s <- b[1..] :: s in b;
      JoinInjective(a[1..], b[1..], separator);
      assert a == [a[0]] + a[1..] && b == [b[0]] + b[1..];
    }
  }

  lemma JoinShape(ss: seq<string>, separator: char)
    requires Joinable(ss, separator)
    ensures Join(ss, separator) == [] <==> ss == []
    ensures separator in Join(ss, separator) <==> |ss| > 1
  {
    if |ss| == 1 {
      assert ss[0] in ss;
    }
  }

  lemma {:induction false} RenderAllMembers(sources: seq<Source>)
    ensures |RenderAll(sources)| == |sources|
    ensures forall i :: 0 <= i < |sources| ==> RenderAll(sources)[i] == Render(sources[i])
    ensures Joinable(RenderAll(sources), '|')
  {
    if sources != [] {
      RenderHasNoBar(sources[0]);
      RenderAllMembers(sources[1..]);
    }
  }

  lemma {:induction false} RenderedCount(sources: seq<Source>, s: Source)
    ensures multiset(RenderAll(sources))[Render(s)] == multiset(sources)[s]
  {
    if sources != [] {
      RenderedCount(sources[1..], s);
      if Render(sources[0]) == Render(s) {
        RenderInjective(sources[0], s);
      }
      assert sources == [sources[0]] + sources[1..];
      assert RenderAll(sources) == [Render(sources[0])] + RenderAll(sources[1..]);
    }
  }

  lemma RenderedMultiset(a: seq<Source>, b: seq<Source>)
    ensures multiset(RenderAll(a)) == multiset(RenderAll(b)) <==> multiset(a) == multiset(b)
  {
    if multiset(RenderAll(a)) == multiset(RenderAll(b)) {
      forall s ensures multiset(a)[s] == multiset(b)[s] {
        RenderedCount(a, s);
        RenderedCount(b, s);
      }
    }
    if multiset(a) == multiset(b) {
      forall r ensures multiset(RenderAll(a))[r] == multiset(RenderAll(b))[r] {
        RenderedOnlySources(a, b, r);
        RenderedOnlySources(b, a, r);
      }
    }
  }

  lemma RenderedOnlySources(a: seq<Source>, b: seq<Source>, r: string)
    requires multiset(a) == multiset(b)
    ensures multiset(RenderAll(a))[r] <= multiset(RenderAll(b))[r]
  {
    RenderAllMembers(a);
    if r in multiset(RenderAll(a)) {
      var i :| 0 <= i < |a| && RenderAll(a)[i] == r;
      RenderedCount(a, a[i]);
      RenderedCount(b, a[i]);
    }
  }

  /** Two batches have the same fingerprint exactly when they hold the same source records, in any order. */
  lemma FingerprintIdentifiesSources(a: seq<Source>, b: seq<Source>)
    ensures Fingerprint(a) == Fingerprint(b) <==> multiset(a) == multiset(b)
  {
    var x, y := RenderAll(a), RenderAll(b);
    SortStringsSorts(x);
    SortStringsSorts(y);
    RenderAllMembers(a);
    RenderAllMembers(b);
    RenderedMultiset(a, b);
    if Fingerprint(a) == Fingerprint(b) {
      forall s <- SortStrings(x) ensures s in x { assert s in multiset(x); }
      forall s <- SortStrings(y) ensures s in y { assert s in multiset(y); }
      JoinInjective(SortStrings(x), SortStrings(y), '|');
    }
    if multiset(a) == multiset(b) {
      SortedFormIsUnique(SortStrings(x), SortStrings(y));
    }
  }

  /** With a collision-free digest the identifier itself does. */
  lemma BatchIdIdentifiesSources(a: seq<Source>, b: seq<Source>, sha256: string -> string)
    requires Injective(sha256)
    ensures ComputeBatchId(a, sha256) == ComputeBatchId(b, sha256) <==> multiset(a) == multiset(b)
  {
    FingerprintIdentifiesSources(a, b);
    if ComputeBatchId(a, sha256) == ComputeBatchId(b, sha256) {
      assert sha256(Fingerprint(a)) == sha256(Fingerprint(b));
    }
  }

  /** Records and the same with more of them have one identifier exactly if nothing was added. */
  lemma MoreSourcesChangeTheId(a: seq<Source>, more: seq<Source>, sha256: string -> string)
    requires Injective(sha256)
    ensures ComputeBatchId(a + more, sha256) == ComputeBatchId(a, sha256) <==> more == []
  {
    BatchIdIdentifiesSources(a + more, a, sha256);
    assert multiset(a + more) == multiset(a) + multiset(more);
    assert |multiset(more)| == |more|;
    if more == [] {
      assert a + more == a;
    }
  }

  /** The parts are sorted as strings, not as numbers: offset 10 comes before offset 9. */
  lemma SortedAsStrings()
    ensures Fingerprint([Source(0, 9), Source(0, 10)]) == "0:10|0:9"
  {
    assert Decimal(0) == "0" && Decimal(9) == "9" && Decimal(10) == "10";
    var nine, ten := Render(Source(0, 9)), Render(Source(0, 10));
    assert nine == "0:9" && ten == "0:10";
    assert RenderAll([Source(0, 9), Source(0, 10)]) == [nine, ten] by {
      assert [Source(0, 9), Source(0, 10)][1..] == [Source(0, 10)] && RenderAll([]) == [];
      assert RenderAll([Source(0, 10)]) == [ten];
    }
    assert [nine, ten][1..] == [ten] && SortStrings([ten]) == [ten];
    assert nine[2..] == "9" && ten[2..] == "10" && nine[1..] == ":9" && ten[1..] == ":10";
    assert !LexLe(nine[2..], ten[2..]) && !LexLe(nine[1..], ten[1..]) && !LexLe(nine, ten);
    assert InsertSorted(nine, []) == [nine];
    assert SortStrings([nine, ten]) == [ten, nine];
    assert [ten, nine][1..] == [nine];
  }
}
