/** `createArrayMenu` of scene-start.cpp: a list of `size` menu entries, numbered from 1,
    is split into submenus of at most ten, each labelled "first-last". The GLUT menu
    handles are left out; a submenu is the sequence of entry numbers added to it. */
module Paging {

  /** The largest `int` of the source. */
  const MaxInt: int := 0x7fff_ffff

  /** C's `/`, which truncates toward zero (Dafny's rounds toward negative infinity for a
      positive divisor). */
  function CDiv(a: int, b: int): (q: int)
    requires b > 0
    ensures a >= 0 ==> q * b <= a < q * b + b
    ensures a < 0 ==> q * b - b < a <= q * b
  {
    if a >= 0 then a / b else -((-a) / b)
  }

  function Min(a: int, b: int): int {
    if a <= b then a else b
  }

  /** `nSubMenus = (size-1)/10 + 1`. */
  function SubMenuCount(size: int): int {
    CDiv(size - 1, 10) + 1
  }

  /** The consecutive integers `lo, lo+1, ..., hi-1`. */
  function Range(lo: int, hi: int): (r: seq<int>)
    ensures |r| == if lo < hi then hi - lo else 0
    ensures forall k :: 0 <= k < |r| ==> r[k] == lo + k
  {
    seq(if lo < hi then hi - lo else 0, k => lo + k)
  }

  lemma {:induction false} RangeSplit(a: int, b: int, c: int)
    requires a <= b <= c
    ensures Range(a, b) + Range(b, c) == Range(a, c)
  {
    assert |Range(a, b) + Range(b, c)| == |Range(a, c)|;
    forall k | 0 <= k < |Range(a, c)|
      ensures (Range(a, b) + Range(b, c))[k] == Range(a, c)[k]
    {
      if k < |Range(a, b)| {
      } else {
        assert (Range(a, b) + Range(b, c))[k] == Range(b, c)[k - (b - a)];
      }
    }
  }

  /** The entries of every submenu, in order. */
  function Flatten(ss: seq<seq<int>>): seq<int> {
    if ss == [] then [] else Flatten(ss[..|ss| - 1]) + ss[|ss| - 1]
  }

  /** The numbers printed on the parent-menu item of a submenu. */
  datatype Label = Label(first: int, last: int)

  /** The label of submenu `i`: `i*10+1` to `min(i*10+10, size)`. */
  function LabelOf(i: int, size: int): Label {
    Label(i * 10 + 1, Min(i * 10 + 10, size))
  }

  /** The submenu `x` belongs to. */
  function PageOf(x: int): int {
    (x - 1) / 10
  }

  /** The entries of submenu `i`. */
  function Page(i: int, size: int): seq<int> {
    Range(10 * i + 1, Min(10 * i + 10, size) + 1)
  }

  /** Every entry `1..size` is listed once, in order, and entry `x` is in submenu
      `(x-1)/10` and in no other. */
  predicate EachEntryOnce(subMenus: seq<seq<int>>, size: int) {
    && Flatten(subMenus) == Range(1, size + 1)
    && (forall i, k :: 0 <= i < |subMenus| && 0 <= k < |subMenus[i]| ==>
          1 <= subMenus[i][k] <= size && PageOf(subMenus[i][k]) == i)
    && (forall x :: 1 <= x <= size ==> 0 <= PageOf(x) < |subMenus| && x in subMenus[PageOf(x)])
  }

  /** A non-empty list gives submenus of one to ten entries; an empty one gives empty
      submenus. */
  predicate PageSizes(subMenus: seq<seq<int>>, size: int) {
    && (size >= 1 ==> forall i :: 0 <= i < |subMenus| ==> 1 <= |subMenus[i]| <= 10)
    && (size <= 0 ==> forall i :: 0 <= i < |subMenus| ==> subMenus[i] == [])
  }

  /** Label `i` is `i*10+1` to `min(i*10+10, size)`, which are the first and last entry of
      submenu `i`. */
  predicate LabelsName(subMenus: seq<seq<int>>, labels: seq<Label>, size: int) {
    && |labels| == |subMenus|
    && (forall i :: 0 <= i < |labels| ==> labels[i] == LabelOf(i, size))
    && (forall i :: 0 <= i < |subMenus| && subMenus[i] != [] ==>
          labels[i] == Label(subMenus[i][0], subMenus[i][|subMenus[i]| - 1]))
  }

  /** Every label of an `int`-sized list fits the corrected buffer. */
  predicate LabelsFitBuffer(labels: seq<Label>, size: int) {
    size <= MaxInt ==> forall i :: 0 <= i < |labels| ==> FitsIn(LabelText(labels[i]), LabelCapacity)
  }

  /** The menu `createArrayMenu` is meant to build: `(size-1)/10 + 1` submenus (in C
      division) that list every entry once, sized and labelled as above. */
  predicate MenuBuilt(subMenus: seq<seq<int>>, labels: seq<Label>, size: int) {
    && |subMenus| == SubMenuCount(size)
    && EachEntryOnce(subMenus, size)
    && PageSizes(subMenus, size)
    && LabelsName(subMenus, labels, size)
    && LabelsFitBuffer(labels, size)
  }

  /** `createArrayMenu(size, ...)`: submenu `i` holds entries `10i+1` to `min(10i+10, size)`
      and the parent item `i` is labelled with those two numbers. The count of submenus is
      the source's C division, so `size` must not make the variable-length array negative.
      The labels are printed into a buffer of `LabelCapacity` bytes, not the source's six
      (see `LabelOverflowAsWritten`). */
  method CreateArrayMenu(size: int) returns (subMenus: seq<seq<int>>, labels: seq<Label>)
    requires SubMenuCount(size) >= 0
    ensures MenuBuilt(subMenus, labels, size)
  {
    subMenus := CreateSubMenus(size);
    labels := LabelSubMenus(size);
    MenuFacts(size);
  }

  /** The first loop: one submenu per ten entries, each given its entries in order. */
  method CreateSubMenus(size: int) returns (subMenus: seq<seq<int>>)
    requires SubMenuCount(size) >= 0
    ensures subMenus == Pages(SubMenuCount(size), size)
  {
    var n := SubMenuCount(size);
    subMenus := [];
    var i := 0;
    while i < n
      invariant 0 <= i <= n
      invariant subMenus == Pages(i, size)
    {
      var entries := AddEntries(10 * i + 1, Min(10 * i + 10, size));
      subMenus := subMenus + [entries];
      i := i + 1;
    }
  }

  /** The second loop: the parent menu's item for each submenu, with its label. */
  method LabelSubMenus(size: int) returns (labels: seq<Label>)
    requires SubMenuCount(size) >= 0
    ensures labels == Labels(SubMenuCount(size), size)
  {
    var n := SubMenuCount(size);
    labels := [];
    var i := 0;
    while i < n
      invariant 0 <= i <= n
      invariant labels == Labels(i, size)
    {
      labels := labels + [LabelOf(i, size)];
      i := i + 1;
    }
  }

  /** What the two loops of `createArrayMenu` build. */
  lemma MenuFacts(size: int)
    requires SubMenuCount(size) >= 0
    ensures MenuBuilt(Pages(SubMenuCount(size), size), Labels(SubMenuCount(size), size), size)
  {
    PagesIndex(SubMenuCount(size), size);
    PagesCoverEntries(size);
    PagesSized(size);
    PagesLabelled(size);
    LabelsFit(size);
  }

  /** The first `k` submenus. */
  function Pages(k: nat, size: int): seq<seq<int>> {
    if k == 0 then [] else Pages(k - 1, size) + [Page(k - 1, size)]
  }

  /** The first `k` labels. */
  function Labels(k: nat, size: int): seq<Label> {
    if k == 0 then [] else Labels(k - 1, size) + [LabelOf(k - 1, size)]
  }

  lemma {:induction false} PagesIndex(k: nat, size: int)
    ensures |Pages(k, size)| == k && |Labels(k, size)| == k
    ensures forall p :: 0 <= p < k ==> Pages(k, size)[p] == Page(p, size)
    ensures forall p :: 0 <= p < k ==> Labels(k, size)[p] == LabelOf(p, size)
  {
    if k > 0 {
      PagesIndex(k - 1, size);
    }
  }

  /** The inner loop: `glutAddMenuEntry(..., j)` for `j` from `lo` to `hi`. */
  method AddEntries(lo: int, hi: int) returns (entries: seq<int>)
    ensures entries == Range(lo, hi + 1)
  {
    entries := [];
    var j := lo;
    while j <= hi
      invariant lo <= j <= hi + 1 || (j == lo && hi < lo)
      invariant entries == Range(lo, j)
      decreases hi - j
    {
      RangeSplit(lo, j, j + 1);
      entries := entries + [j];
      j := j + 1;
    }
  }

  lemma FlattenSnoc(ss: seq<seq<int>>, s: seq<int>)
    ensures Flatten(ss + [s]) == Flatten(ss) + s
  {
    assert (ss + [s])[..|ss|] == ss;
  }

  /** The first `k` pages list the entries `1..min(10k, size)`. */
  lemma {:induction false} FlattenPages(k: nat, size: int)
    requires k <= SubMenuCount(size)
    ensures Flatten(Pages(k, size)) == Range(1, Min(10 * k, size) + 1)
  {
    if k > 0 {
      var i := k - 1;
      FlattenPages(i, size);
      FlattenSnoc(Pages(i, size), Page(i, size));
      if size >= 1 {
        CountBound(size, i);
        RangeSplit(1, Min(10 * i, size) + 1, Min(10 * i + 10, size) + 1);
      }
    }
  }

  /** Every submenu index starts at an entry that exists. */
  lemma CountBound(size: int, i: int)
    requires size >= 1 && 0 <= i < SubMenuCount(size)
    ensures 10 * i + 1 <= size
  {
  }

  /** The submenus reach the last entry. */
  lemma CountCovers(size: int)
    requires SubMenuCount(size) >= 0
    ensures Min(10 * SubMenuCount(size), size) == size
  {
  }

  /** Entry `x` lies within the bounds of submenu `(x-1)/10`. */
  lemma EntryPage(x: int, size: int)
    requires 1 <= x <= size
    ensures 0 <= PageOf(x) < SubMenuCount(size)
    ensures 10 * PageOf(x) + 1 <= x <= Min(10 * PageOf(x) + 10, size)
  {
  }

  /** An entry of submenu `i` is a real entry and belongs to submenu `i`. */
  lemma PageMember(i: int, k: int, size: int)
    requires 0 <= i && 0 <= k < |Page(i, size)|
    ensures 1 <= Page(i, size)[k] <= size && PageOf(Page(i, size)[k]) == i
  {
    assert Page(i, size)[k] - 1 == 10 * i + k && 0 <= k < 10;
  }

  /** The submenus hold each entry once, in submenu `(x-1)/10`. */
  lemma PagesCoverEntries(size: int)
    requires SubMenuCount(size) >= 0
    ensures EachEntryOnce(Pages(SubMenuCount(size), size), size)
  {
    PagesFlatten(size);
    PagesPlaceEntries(size);
    PagesReachEntries(size);
  }

  /** Read in order, the submenus list every entry once. */
  lemma PagesFlatten(size: int)
    requires SubMenuCount(size) >= 0
    ensures Flatten(Pages(SubMenuCount(size), size)) == Range(1, size + 1)
  {
    FlattenPages(SubMenuCount(size), size);
    CountCovers(size);
  }

  /** Every listed entry is in range and sits in submenu `PageOf` of it. */
  lemma PagesPlaceEntries(size: int)
    requires SubMenuCount(size) >= 0
    ensures var ss := Pages(SubMenuCount(size), size);
      forall i, k :: 0 <= i < |ss| && 0 <= k < |ss[i]| ==> 1 <= ss[i][k] <= size && PageOf(ss[i][k]) == i
  {
    var ss := Pages(SubMenuCount(size), size);
    forall i, k | 0 <= i < |ss| && 0 <= k < |ss[i]|
      ensures 1 <= ss[i][k] <= size && PageOf(ss[i][k]) == i
    {
      EntryInPlace(size, i, k);
    }
  }

  /** Every entry from 1 to `size` is found in submenu `PageOf` of it. */
  lemma PagesReachEntries(size: int)
    requires SubMenuCount(size) >= 0
    ensures var ss := Pages(SubMenuCount(size), size);
      forall x :: 1 <= x <= size ==> 0 <= PageOf(x) < |ss| && x in ss[PageOf(x)]
  {
    var ss := Pages(SubMenuCount(size), size);
    forall x | 1 <= x <= size
      ensures 0 <= PageOf(x) < |ss| && x in ss[PageOf(x)]
    {
      EntryReached(size, x);
    }
  }

  lemma EntryInPlace(size: int, i: int, k: int)
    requires SubMenuCount(size) >= 0
    requires 0 <= i < |Pages(SubMenuCount(size), size)| && 0 <= k < |Pages(SubMenuCount(size), size)[i]|
    ensures 1 <= Pages(SubMenuCount(size), size)[i][k] <= size
    ensures PageOf(Pages(SubMenuCount(size), size)[i][k]) == i
  {
    PagesIndex(SubMenuCount(size), size);
    PageMember(i, k, size);
  }

  lemma EntryReached(size: int, x: int)
    requires SubMenuCount(size) >= 0
    requires 1 <= x <= size
    ensures 0 <= PageOf(x) < |Pages(SubMenuCount(size), size)|
    ensures x in Pages(SubMenuCount(size), size)[PageOf(x)]
  {
    var p := PageOf(x);
    PagesIndex(SubMenuCount(size), size);
    EntryPage(x, size);
    assert Pages(SubMenuCount(size), size)[p] == Page(p, size);
    assert Page(p, size)[x - (10 * p + 1)] == x;
  }

  lemma PagesSized(size: int)
    requires SubMenuCount(size) >= 0
    ensures PageSizes(Pages(SubMenuCount(size), size), size)
  {
    var n := SubMenuCount(size);
    PagesIndex(n, size);
    if size >= 1 {
      forall i | 0 <= i < n
        ensures 1 <= |Pages(n, size)[i]| <= 10
      {
        CountBound(size, i);
      }
    }
  }

  lemma PagesLabelled(size: int)
    requires SubMenuCount(size) >= 0
    ensures LabelsName(Pages(SubMenuCount(size), size), Labels(SubMenuCount(size), size), size)
  {
    var n := SubMenuCount(size);
    PagesIndex(n, size);
    forall i | 0 <= i < n && Pages(n, size)[i] != []
      ensures Labels(n, size)[i] == Label(Pages(n, size)[i][0], Pages(n, size)[i][|Pages(n, size)[i]| - 1])
    {
      if size >= 1 { CountBound(size, i); }
    }
  }

  lemma LabelsFit(size: int)
    requires SubMenuCount(size) >= 0
    ensures LabelsFitBuffer(Labels(SubMenuCount(size), size), size)
  {
    var n := SubMenuCount(size);
    PagesIndex(n, size);
    if size <= MaxInt {
      forall i | 0 <= i < n
        ensures FitsIn(LabelText(Labels(n, size)[i]), LabelCapacity)
      {
        LabelFits(size, i);
      }
    }
  }

  // ---- the label text ----

  function DigitChar(d: int): char
    requires 0 <= d < 10
  {
    "0123456789"[d]
  }

  /** The decimal digits of `n`, as `%d` prints a non-negative number. */
  function Digits(n: nat): (s: string)
    ensures 1 <= |s|
    ensures forall k :: 0 <= k < |s| ==> '0' <= s[k] <= '9'
  {
    if n < 10 then [DigitChar(n)] else Digits(n / 10) + [DigitChar(n % 10)]
  }

  /** `%d`. */
  function DecimalText(n: int): string {
    if n < 0 then "-" + Digits(-n) else Digits(n)
  }

  /** What `sprintf(num, "%d-%d", ...)` writes, before its terminating NUL. */
  function LabelText(l: Label): string {
    DecimalText(l.first) + "-" + DecimalText(l.last)
  }

  /** A text and its NUL fit in a `char[cap]`. */
  predicate FitsIn(text: string, cap: int) {
    |text| + 1 <= cap
  }

  /** The label buffer as declared: `char num[6]`. */
  const LabelBufferAsWritten: int := 6

  function Pow10(k: nat): (p: nat)
    ensures p >= 1
  {
    if k == 0 then 1 else 10 * Pow10(k - 1)
  }

  /** `n` has at most `k` digits when it is below `10^k`. */
  lemma {:induction false} DigitsLength(n: nat, k: nat)
    requires 1 <= k && n < Pow10(k)
    ensures |Digits(n)| <= k
  {
    if n >= 10 {
      assert n / 10 < Pow10(k - 1);
      DigitsLength(n / 10, k - 1);
    }
  }

  /** As written, a list of 100 or more entries makes the tenth label "91-100", whose
      seven bytes overrun `num[6]`. */
  lemma LabelOverflowAsWritten(size: int)
    requires size >= 100
    ensures LabelOf(9, size) == Label(91, 100)
    ensures !FitsIn(LabelText(LabelOf(9, size)), LabelBufferAsWritten)
  {
    assert Digits(91) == Digits(9) + ['1'];
    assert Digits(100) == Digits(10) + ['0'];
    assert |LabelText(Label(91, 100))| == 6;
  }

  /** Room for two `%d` of a 32-bit `int` (sign and ten digits each), the dash and the NUL. */
  const LabelCapacity: int := 24

  /** With the buffer sized for the widest `int`, every label `createArrayMenu` prints for
      an `int` size fits. */
  lemma LabelFits(size: int, i: int)
    requires SubMenuCount(size) >= 0 && size <= MaxInt
    requires 0 <= i < SubMenuCount(size)
    ensures FitsIn(LabelText(LabelOf(i, size)), LabelCapacity)
  {
    var l := LabelOf(i, size);
    assert Pow10(10) == 10000000000;
    assert 1 <= l.first <= MaxInt by {
      if size >= 1 { CountBound(size, i); }
    }
    DigitsLength(l.first, 10);
    if l.last >= 0 {
      DigitsLength(l.last, 10);
    } else {
      assert -l.last < Pow10(10);
      DigitsLength(-l.last, 10);
    }
  }
}
