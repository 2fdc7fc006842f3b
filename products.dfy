/** The product record of backend/models/Product.js: pricing and inventory
    fields with their schema bounds, the `isLowStock` virtual, the SKU
    normalisation the schema applies (`trim`, `uppercase`) and the
    `pre('save')` hook that stamps `inventory.lastStockUpdate`. */
module Products {
  import opened Common

  /** `inventory.location` (aisle, shelf, bin). */
  datatype Location = Location(aisle: string, shelf: string, bin: string)

  datatype Product = Product(
    name: string,
    sku: string,
    category: CategoryId,
    supplier: SupplierId,
    costPrice: int,
    sellingPrice: int,
    currentStock: int,
    minStock: int,
    maxStock: Option<int>,
    location: Option<Location>,
    isActive: bool,
    lastStockUpdate: Option<Time>)

  /** The schema's validators, which every save runs: required name and
      SKU, and every price and stock bound `min: 0`. The SKU's `trim` and
      `uppercase` options are setters applied on assignment, not
      validators; `NormalizeSku` models them. */
  predicate ValidProduct(p: Product) {
    && p.name != ""
    && p.sku != ""
    && p.costPrice >= 0
    && p.sellingPrice >= 0
    && p.currentStock >= 0
    && p.minStock >= 0
    && (p.maxStock.Some? ==> p.maxStock.value >= 0)
  }

  /** The `isLowStock` virtual. */
  predicate IsLowStock(p: Product) {
    p.currentStock <= p.minStock
  }

  /** The `pre('save')` hook: `lastStockUpdate` becomes `now` exactly when
      the save changes `currentStock` (the document library marks a path
      modified only when its value changes); every other field is the
      edited document's. */
  function PreSave(stored: Product, edited: Product, now: Time): (r: Product)
    ensures r.(lastStockUpdate := edited.lastStockUpdate) == edited
    ensures edited.currentStock != stored.currentStock ==> r.lastStockUpdate == Some(now)
    ensures edited.currentStock == stored.currentStock ==> r.lastStockUpdate == edited.lastStockUpdate
  {
    if edited.currentStock != stored.currentStock then edited.(lastStockUpdate := Some(now)) else edited
  }

  /** Saving a second time without touching the stock keeps the timestamp of
      the first save, and the hook never breaks the schema's bounds. */
  lemma PreSaveStable(stored: Product, edited: Product, now: Time, later: Time)
    ensures PreSave(PreSave(stored, edited, now), PreSave(stored, edited, now), later)
            == PreSave(stored, edited, now)
    ensures ValidProduct(edited) ==> ValidProduct(PreSave(stored, edited, now))
  {
  }

  // ---------------------------------------------------------------------
  // SKU normalisation: String.prototype.trim and toUpperCase.

  /** The characters String.prototype.trim removes: WhiteSpace (tab, vertical
      tab, form feed, space, no-break space, byte order mark and the Zs
      category) and LineTerminator. */
  predicate IsJsWhitespace(c: char) {
    var n := c as int;
    || (0x09 <= n <= 0x0D) || n == 0x20 || n == 0xA0 || n == 0x1680
    || (0x2000 <= n <= 0x200A) || n == 0x2028 || n == 0x2029 || n == 0x202F
    || n == 0x205F || n == 0x3000 || n == 0xFEFF
  }

  predicate IsTrimmed(s: string) {
    s == [] || (!IsJsWhitespace(s[0]) && !IsJsWhitespace(s[|s| - 1]))
  }

  /** Index of the first non-whitespace character at or after `i`. */
  function SkipLeading(s: string, i: nat): (r: nat)
    requires i <= |s|
    ensures i <= r <= |s|
    ensures forall k :: i <= k < r ==> IsJsWhitespace(s[k])
    ensures r == |s| || !IsJsWhitespace(s[r])
    decreases |s| - i
  {
    if i < |s| && IsJsWhitespace(s[i]) then SkipLeading(s, i + 1) else i
  }

  /** Index just past the last non-whitespace character before `j`,
      going no lower than `lo`. */
  function SkipTrailing(s: string, lo: nat, j: nat): (r: nat)
    requires lo <= j <= |s|
    ensures lo <= r <= j
    ensures forall k :: r <= k < j ==> IsJsWhitespace(s[k])
    ensures r == lo || !IsJsWhitespace(s[r - 1])
    decreases j
  {
    if lo < j && IsJsWhitespace(s[j - 1]) then SkipTrailing(s, lo, j - 1) else j
  }

  /** String.prototype.trim: the middle slice of `s` left once the leading
      and trailing whitespace is cut away; the result neither starts nor
      ends with whitespace. */
  function Trim(s: string): (r: string)
    ensures IsTrimmed(r)
    ensures r == s[SkipLeading(s, 0)..SkipTrailing(s, SkipLeading(s, 0), |s|)]
  {
    var i := SkipLeading(s, 0);
    s[i..SkipTrailing(s, i, |s|)]
  }

  lemma TrimOfTrimmed(s: string)
    requires IsTrimmed(s)
    ensures Trim(s) == s
  {
    assert SkipLeading(s, 0) == 0;
    assert SkipTrailing(s, 0, |s|) == |s|;
  }

  function UpperChar(c: char): (r: char)
    ensures 'a' <= c <= 'z' ==> r as int == c as int - 32
    ensures !('a' <= c <= 'z') ==> r == c
  {
    if 'a' <= c <= 'z' then (c as int - 32) as char else c
  }

  lemma UpperCharKeepsWhitespace(c: char)
    ensures IsJsWhitespace(UpperChar(c)) == IsJsWhitespace(c)
  {
  }

  /** String.prototype.toUpperCase on the ASCII letters; every other
      character is kept. */
  function ToUpper(s: string): (r: string)
    ensures |r| == |s|
    ensures forall k :: 0 <= k < |s| ==> r[k] == UpperChar(s[k])
  {
    seq(|s|, k requires 0 <= k < |s| => UpperChar(s[k]))
  }

  lemma ToUpperKeepsTrimmed(t: string)
    requires IsTrimmed(t)
    ensures IsTrimmed(ToUpper(t))
  {
    if t != [] {
      UpperCharKeepsWhitespace(t[0]);
      UpperCharKeepsWhitespace(t[|t| - 1]);
    }
  }

  /** The stored form of a SKU: trimmed, then upper-cased. */
  function NormalizeSku(s: string): (r: string)
    ensures IsTrimmed(r)
    ensures forall k :: 0 <= k < |r| ==> !('a' <= r[k] <= 'z')
    ensures |r| == |Trim(s)| && forall k :: 0 <= k < |r| ==> r[k] == UpperChar(Trim(s)[k])
  {
    var t := Trim(s);
    ToUpperKeepsTrimmed(t);
    ToUpper(t)
  }

  /** Normalising a normalised SKU changes nothing. */
  lemma NormalizeSkuIdempotent(s: string)
    ensures NormalizeSku(NormalizeSku(s)) == NormalizeSku(s)
  {
    var n := NormalizeSku(s);
    TrimOfTrimmed(n);
    assert ToUpper(n) == n;
  }

  predicate AllWhitespace(w: string) {
    forall k :: 0 <= k < |w| ==> IsJsWhitespace(w[k])
  }

  /** Trim cuts exactly the whitespace around a trimmed middle. */
  lemma TrimPadded(a: string, m: string, b: string)
    requires AllWhitespace(a) && AllWhitespace(b) && IsTrimmed(m)
    ensures Trim(a + m + b) == m
  {
    var s := a + m + b;
    var i := SkipLeading(s, 0);
    var j := SkipTrailing(s, i, |s|);
    if m == [] {
      assert AllWhitespace(s) by {
        forall k | 0 <= k < |s| ensures IsJsWhitespace(s[k]) {
          if k < |a| { assert s[k] == a[k]; } else { assert s[k] == b[k - |a|]; }
        }
      }
      assert i == |s|;
    } else {
      assert s[|a|] == m[0] && s[|a| + |m| - 1] == m[|m| - 1];
      assert i == |a|;
      assert j == |a| + |m|;
      assert s[i..j] == m;
    }
  }

  /** A string is its trimmed middle between two runs of whitespace. */
  lemma TrimSplit(s: string) returns (pre: string, post: string)
    ensures s == pre + Trim(s) + post
    ensures AllWhitespace(pre) && AllWhitespace(post)
  {
    var i := SkipLeading(s, 0);
    var j := SkipTrailing(s, i, |s|);
    pre, post := s[..i], s[j..];
    assert s == s[..i] + s[i..j] + s[j..];
  }

  lemma WhitespaceConcat(x: string, y: string)
    requires AllWhitespace(x) && AllWhitespace(y)
    ensures AllWhitespace(x + y)
  {
    forall k | 0 <= k < |x + y| ensures IsJsWhitespace((x + y)[k]) {
      if k >= |x| { assert (x + y)[k] == y[k - |x|]; }
    }
  }

  /** Whitespace before and after a string does not change its trim. */
  lemma TrimIgnoresPadding(a: string, s: string, b: string)
    requires AllWhitespace(a) && AllWhitespace(b)
    ensures Trim(a + s + b) == Trim(s)
  {
    var pre, post := TrimSplit(s);
    WhitespaceConcat(a, pre);
    WhitespaceConcat(post, b);
    Regroup(a, pre, Trim(s), post, b);
    TrimPadded(a + pre, Trim(s), post + b);
  }

  lemma Regroup(a: string, pre: string, m: string, post: string, b: string)
    ensures a + (pre + m + post) + b == (a + pre) + m + (post + b)
  {
  }

  /** Leading and trailing whitespace around a SKU does not change its
      stored form. */
  lemma NormalizeSkuIgnoresPadding(a: string, s: string, b: string)
    requires AllWhitespace(a) && AllWhitespace(b)
    ensures NormalizeSku(a + s + b) == NormalizeSku(s)
  {
    TrimIgnoresPadding(a, s, b);
  }

  /** Upper-casing distributes over concatenation. */
  lemma ToUpperConcat(x: string, y: string)
    ensures ToUpper(x + y) == ToUpper(x) + ToUpper(y)
  {
  }

  /** Upper-casing whitespace leaves whitespace. */
  lemma ToUpperWhitespace(w: string)
    requires AllWhitespace(w)
    ensures AllWhitespace(ToUpper(w))
  {
    forall k | 0 <= k < |w| ensures IsJsWhitespace(ToUpper(w)[k]) {
      UpperCharKeepsWhitespace(w[k]);
    }
  }

  /** Trimming and upper-casing commute. */
  lemma TrimToUpper(s: string)
    ensures Trim(ToUpper(s)) == ToUpper(Trim(s))
  {
    var pre, post := TrimSplit(s);
    var m := ToUpper(Trim(s));
    ToUpperConcat(pre, Trim(s));
    ToUpperConcat(pre + Trim(s), post);
    ToUpperWhitespace(pre);
    ToUpperWhitespace(post);
    ToUpperKeepsTrimmed(Trim(s));
    TrimPadded(ToUpper(pre), m, ToUpper(post));
  }

  /** The letter case of a SKU does not change its stored form. */
  lemma NormalizeSkuIgnoresCase(s: string)
    ensures NormalizeSku(ToUpper(s)) == NormalizeSku(s)
  {
    TrimToUpper(s);
    var m := ToUpper(Trim(s));
    assert ToUpper(m) == m;
  }
}
