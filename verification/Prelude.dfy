/** Small vocabulary shared by every component of the model. */
module Prelude {
  type ItemId = string
  type Revision = string

  /** Attempts of an item are numbered from one. */
  type Attempt = n: int | n >= 1 witness 1

  datatype Option<+T> = None | Some(value: T)

  datatype Result<+T, +E> = Ok(value: T) | Err(error: E)

  /** The elements of a sequence, as a set. */
  function Elems<T>(xs: seq<T>): set<T> {
    set x | x in xs
  }

  predicate Distinct<T(==)>(xs: seq<T>) {
    forall i, j :: 0 <= i < j < |xs| ==> xs[i] != xs[j]
  }

  /** The position of the first occurrence of an element. */
  function IndexOf<T(==)>(xs: seq<T>, x: T): (k: nat)
    requires x in xs
    ensures k < |xs| && xs[k] == x && x !in xs[..k]
  {
    if xs[0] == x then 0 else IndexOf(xs[1..], x) + 1
  }

  function MapAll<T, V>(items: seq<T>, f: T -> V): (mapped: seq<V>)
    ensures |mapped| == |items|
    ensures forall i :: 0 <= i < |items| ==> mapped[i] == f(items[i])
  {
    seq(|items|, i requires 0 <= i < |items| => f(items[i]))
  }

  /** What each element contributes, in order. */
  function Concat<T, V>(xs: seq<T>, f: T -> seq<V>): (all: seq<V>)
    ensures all == [] <==> forall x :: x in xs ==> f(x) == []
  {
    if xs == [] then [] else Concat(xs[..|xs| - 1], f) + f(xs[|xs| - 1])
  }

  lemma ConcatOneMore<T, V>(xs: seq<T>, x: T, f: T -> seq<V>)
    ensures Concat(xs + [x], f) == Concat(xs, f) + f(x)
  {
  }

  /** A dictionary updated at every listed key. */
  function WithAll<K, V>(m: map<K, V>, keys: seq<K>, f: K -> V): map<K, V> {
    m + map k | k in keys :: f(k)
  }

  lemma WithOneMore<K, V>(m: map<K, V>, keys: seq<K>, k: K, f: K -> V)
    ensures WithAll(m, keys + [k], f) == WithAll(m, keys, f)[k := f(k)]
  {
  }

  lemma MapOneMore<T, V>(items: seq<T>, x: T, f: T -> V)
    ensures MapAll(items + [x], f) == MapAll(items, f) + [f(x)]
  {
  }

  /** The characters Python's `str.strip` removes. */
  predicate IsSpace(c: char) {
    var k := c as int;
    || 9 <= k <= 13 || 28 <= k <= 32 || k == 0x85 || k == 0xA0 || k == 0x1680
    || 0x2000 <= k <= 0x200A || k == 0x2028 || k == 0x2029 || k == 0x202F || k == 0x205F || k == 0x3000
  }

  const SPACES := "\t\n\U{000B}\U{000C}\r\U{001C}\U{001D}\U{001E}\U{001F} \U{0085}\U{00A0}\U{1680}\U{2000}\U{2001}\U{2002}\U{2003}"
                  + "\U{2004}\U{2005}\U{2006}\U{2007}\U{2008}\U{2009}\U{200A}\U{2028}\U{2029}\U{202F}\U{205F}\U{3000}"

  /** All of them. */
  lemma SpacesAreListed(c: char)
    ensures IsSpace(c) <==> c in SPACES
  {
  }

  predicate IsBlank(text: string) {
    forall i :: 0 <= i < |text| ==> IsSpace(text[i])
  }

  /** Python's `strip`: what is left between the outer white space. */
  function Strip(text: string): (inner: string)
    ensures inner == "" <==> IsBlank(text)
    ensures inner != "" ==> !IsSpace(inner[0]) && !IsSpace(inner[|inner| - 1])
  {
    if text == "" then ""
    else if IsSpace(text[0]) then Strip(text[1..])
    else if IsSpace(text[|text| - 1]) then Strip(text[..|text| - 1])
    else text
  }

  lemma BlankGrows(c: char, text: string)
    requires IsSpace(c) && IsBlank(text)
    ensures IsBlank([c] + text) && IsBlank(text + [c])
  {
  }

  lemma CutFirst(text: string, i: nat, j: nat)
    requires text != [] && i <= j < |text|
    ensures text[1..][i..j] == text[1 + i..1 + j] && text[1..][j..] == text[1 + j..]
    ensures text[..1 + i] == [text[0]] + text[1..][..i]
  {
  }

  lemma CutLast(text: string, i: nat, j: nat)
    requires text != [] && i <= j < |text|
    ensures text[..|text| - 1][i..j] == text[i..j] && text[..|text| - 1][..i] == text[..i]
    ensures text[j..] == text[..|text| - 1][j..] + [text[|text| - 1]]
  {
  }

  /** It takes away white space at the ends, and nothing else. */
  lemma {:induction false} StripIsInner(text: string) returns (i: nat, j: nat)
    ensures i <= j <= |text| && Strip(text) == text[i..j] && IsBlank(text[..i]) && IsBlank(text[j..])
    decreases |text|
  {
    hide IsSpace, IsBlank;
    if text == "" {
      i, j := 0, 0;
      EmptyIsBlank();
    } else if IsSpace(text[0]) {
      i, j := StripIsInner(text[1..]);
      CutFirst(text, i, j);
      BlankGrows(text[0], text[1..][..i]);
      i, j := 1 + i, 1 + j;
    } else if IsSpace(text[|text| - 1]) {
      i, j := StripIsInner(text[..|text| - 1]);
      CutLast(text, i, j);
      BlankGrows(text[|text| - 1], text[..|text| - 1][j..]);
    } else {
      i, j := 0, |text|;
      EmptyIsBlank();
      assert text[..i] == "" && text[j..] == "" && text[i..j] == text;
    }
  }

  lemma EmptyIsBlank()
    ensures IsBlank("")
  {
  }

  /** Python's `rstrip("/")`. */
  function StripSlashes(s: string): (stripped: string)
    ensures stripped <= s && (stripped == "" || stripped[|stripped| - 1] != '/')
    ensures forall i :: |stripped| <= i < |s| ==> s[i] == '/'
  {
    if s != "" && s[|s| - 1] == '/' then StripSlashes(s[..|s| - 1]) else s
  }

  /** A list has as many elements as positions exactly when nothing is repeated. */
  lemma {:induction false} DistinctCardinality<T>(xs: seq<T>)
    ensures |Elems(xs)| <= |xs|
    ensures |Elems(xs)| == |xs| <==> Distinct(xs)
  {
    if xs != [] {
      var init, last := xs[..|xs| - 1], xs[|xs| - 1];
      DistinctCardinality(init);
      assert xs == init + [last];
      assert Elems(xs) == Elems(init) + {last};
      if last in init {
        assert Elems(xs) == Elems(init);
        var k :| 0 <= k < |init| && init[k] == last;
        assert xs[k] == xs[|xs| - 1];
      }
    }
  }

  lemma SubsetCardinality<T>(a: set<T>, b: set<T>)
    requires a <= b
    ensures |a| <= |b|
  {
    assert b == a + (b - a);
  }
}
