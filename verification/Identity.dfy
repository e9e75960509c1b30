/** Names the system builds for attempts, and why two attempts never share one. */
module Identity {
  import opened Prelude

  predicate IsUpper(c: char) {
    'A' <= c <= 'Z'
  }

  predicate IsDigit(c: char) {
    '0' <= c <= '9'
  }

  predicate AllDigits(s: string) {
    s != [] && forall i :: 0 <= i < |s| ==> IsDigit(s[i])
  }

  /** The tracker's `PROJECT-123` form. */
  predicate IsItemId(s: string) {
    && s != [] && IsUpper(s[0])
    && exists k :: 0 < k < |s| && s[k] == '-' && IsProjectKey(s[1..k]) && AllDigits(s[k + 1..])
  }

  predicate IsProjectKey(s: string) {
    forall i :: 0 <= i < |s| ==> IsUpper(s[i]) || IsDigit(s[i]) || s[i] == '_' || s[i] == '-'
  }

  predicate NoColon(s: string) {
    ':' !in s
  }

  predicate NoLowerCase(s: string) {
    forall i :: 0 <= i < |s| ==> !('a' <= s[i] <= 'z')
  }

  lemma ItemIdAlphabet(id: string)
    requires IsItemId(id)
    ensures NoColon(id) && NoLowerCase(id)
  {
  }

  function Decimal(n: nat): (text: string)
    ensures AllDigits(text)
    ensures |text| > 1 <==> n >= 10
  {
    var last := ['0' + (n % 10) as char];
    if n < 10 then last else Decimal(n / 10) + last
  }

  lemma {:induction false} DecimalIsInjective(m: nat, n: nat)
    requires Decimal(m) == Decimal(n)
    ensures m == n
  {
    assert Decimal(m)[|Decimal(m)| - 1] == '0' + (m % 10) as char;
    assert Decimal(n)[|Decimal(n)| - 1] == '0' + (n % 10) as char;
    if m >= 10 {
      assert Decimal(m / 10) == Decimal(m)[..|Decimal(m)| - 1] == Decimal(n / 10);
      DecimalIsInjective(m / 10, n / 10);
    }
  }

  function DigitValue(c: char): nat
    requires IsDigit(c)
  {
    c as int - '0' as int
  }

  /** The number a text of digits spells. */
  function Value(digits: string): nat
    requires forall i :: 0 <= i < |digits| ==> IsDigit(digits[i])
  {
    if digits == "" then 0
    else 10 * Value(digits[..|digits| - 1]) + DigitValue(digits[|digits| - 1])
  }

  lemma {:induction false} DecimalSpells(n: nat)
    ensures Value(Decimal(n)) == n
  {
    var digits := Decimal(n);
    assert digits[|digits| - 1] == '0' + (n % 10) as char;
    if n >= 10 {
      DecimalSpells(n / 10);
      assert digits[..|digits| - 1] == Decimal(n / 10);
    } else {
      assert digits[..|digits| - 1] == "";
    }
  }

  /** The workspace of an attempt: the item itself first, then a suffix per retry. */
  function WorkspaceKey(id: ItemId, attempt: nat): string {
    if attempt == 1 then id else id + "-attempt-" + Decimal(attempt)
  }

  function WorktreePath(root: string, id: ItemId, attempt: nat): string {
    root + "/" + WorkspaceKey(id, attempt)
  }

  function BranchRef(id: ItemId, attempt: nat): string {
    "mergewave/" + WorkspaceKey(id, attempt)
  }

  function RunIdText(id: ItemId, base: Revision, attempt: nat): string {
    if attempt > 1 then id + ":" + base + ":attempt-" + Decimal(attempt) else id + ":" + base
  }

  /** Where two texts differ from a common prefix, the shorter one's mark settles which ends first. */
  lemma SplitAtMark(a: string, x: string, b: string, y: string, mark: char)
    requires a + x == b + y
    requires mark !in a && mark !in b
    requires x == [] || x[0] == mark
    requires y == [] || y[0] == mark
    ensures a == b && x == y
  {
    var whole := a + x;
    assert |a| < |whole| ==> whole[|a|] == mark;
    assert |b| < |whole| ==> whole[|b|] == mark;
    assert forall i :: 0 <= i < |a| ==> whole[i] == a[i] != mark;
    assert forall i :: 0 <= i < |b| ==> whole[i] == b[i] != mark;
    assert (a + x)[..|a|] == a && (b + y)[..|b|] == b;
    assert (a + x)[|a|..] == x && (b + y)[|b|..] == y;
  }

  lemma SuffixShowsLowerCase(id: ItemId, attempt: nat)
    requires attempt != 1
    ensures !NoLowerCase(WorkspaceKey(id, attempt))
  {
    assert WorkspaceKey(id, attempt)[|id| + 1] == 'a';
  }

  lemma WorkspaceKeyIsInjective(a: ItemId, m: nat, b: ItemId, n: nat)
    requires NoLowerCase(a) && NoLowerCase(b)
    requires WorkspaceKey(a, m) == WorkspaceKey(b, n)
    ensures a == b && m == n
  {
    if m != 1 {
      SuffixShowsLowerCase(a, m);
    }
    if n != 1 {
      SuffixShowsLowerCase(b, n);
    }
    if m != 1 && n != 1 {
      SuffixedKeysAreInjective(a, Decimal(m), b, Decimal(n));
      DecimalIsInjective(m, n);
    }
  }

  lemma SuffixedKeysAreInjective(a: ItemId, x: string, b: ItemId, y: string)
    requires NoLowerCase(a) && NoLowerCase(b) && a + "-attempt-" + x == b + "-attempt-" + y
    ensures a == b && x == y
  {
    var u, v := "attempt-" + x, "attempt-" + y;
    assert (a + "-") + u == a + "-attempt-" + x && (b + "-") + v == b + "-attempt-" + y;
    SplitAtFirstLowerCase(a + "-", u, b + "-", v);
    assert a == (a + "-")[..|a|] && b == (b + "-")[..|b|];
    assert x == u[8..] && y == v[8..];
  }

  lemma SplitAtFirstLowerCase(a: string, x: string, b: string, y: string)
    requires a + x == b + y && NoLowerCase(a) && NoLowerCase(b)
    requires x != [] && x[0] == 'a' && y != [] && y[0] == 'a'
    ensures a == b && x == y
  {
    SplitAtMark(a, x, b, y, 'a');
  }

  lemma PlacesAreDistinct(root: string, a: ItemId, m: nat, b: ItemId, n: nat)
    requires NoLowerCase(a) && NoLowerCase(b)
    ensures WorktreePath(root, a, m) == WorktreePath(root, b, n) ==> a == b && m == n
    ensures BranchRef(a, m) == BranchRef(b, n) ==> a == b && m == n
  {
    var u, v := WorkspaceKey(a, m), WorkspaceKey(b, n);
    assert u == WorktreePath(root, a, m)[|root| + 1..] && v == WorktreePath(root, b, n)[|root| + 1..];
    assert u == BranchRef(a, m)[10..] && v == BranchRef(b, n)[10..];
    if u == v {
      WorkspaceKeyIsInjective(a, m, b, n);
    }
  }

  lemma RunIdIsInjective(a: ItemId, base: Revision, m: nat, b: ItemId, base': Revision, n: nat)
    requires NoColon(a) && NoColon(b) && NoColon(base) && NoColon(base')
    requires m >= 1 && n >= 1
    requires RunIdText(a, base, m) == RunIdText(b, base', n)
    ensures a == b && base == base' && m == n
  {
    var s := if m > 1 then ":attempt-" + Decimal(m) else "";
    var t := if n > 1 then ":attempt-" + Decimal(n) else "";
    assert RunIdText(a, base, m) == a + (":" + (base + s));
    assert RunIdText(b, base', n) == b + (":" + (base' + t));
    SplitAtMark(a, ":" + (base + s), b, ":" + (base' + t), ':');
    assert (":" + (base + s))[1..] == base + s && (":" + (base' + t))[1..] == base' + t;
    SplitAtMark(base, s, base', t, ':');
    if m > 1 && n > 1 {
      assert Decimal(m) == s[9..] && Decimal(n) == t[9..];
      DecimalIsInjective(m, n);
    }
  }

  /** Outside the tracker's alphabet two different attempts can share a workspace. */
  lemma UnvalidatedIdsCollide()
    ensures WorkspaceKey("A-1", 2) == WorkspaceKey("A-1-attempt-2", 1)
    ensures IsItemId("A-1") && !IsItemId("A-1-attempt-2")
  {
    assert Decimal(2) == "2";
    assert WorkspaceKey("A-1", 2) == "A-1-attempt-2";
    assert IsProjectKey("A-1"[1..1]) && AllDigits("A-1"[2..]);
    SuffixShowsLowerCase("A-1", 2);
    if IsItemId("A-1-attempt-2") {
      ItemIdAlphabet("A-1-attempt-2");
    }
  }

  /** The names of first and later attempts, spelled out. */
  lemma AttemptNames()
    ensures WorkspaceKey("A-1", 1) == "A-1" && WorkspaceKey("A-1", 12) == "A-1-attempt-12"
    ensures WorktreePath("/work", "A-1", 1) == "/work/A-1" && BranchRef("A-1", 1) == "mergewave/A-1"
    ensures RunIdText("A-1", "main", 1) == "A-1:main" && RunIdText("A-1", "main", 2) == "A-1:main:attempt-2"
  {
    assert Decimal(1) == "1" && Decimal(2) == "2";
    assert Decimal(12) == Decimal(1) + ['0' + 2 as char] == "12";
  }

  /** What item ids may look like, at the edges. */
  lemma ItemIdForms()
    ensures IsItemId("A-0") && IsItemId("Z_-9") && IsItemId("AZ09-90")
    ensures !IsItemId("a-1") && !IsItemId("1-1") && !IsItemId("A1") && !IsItemId("A-") && !IsItemId("A-1x")
  {
    assert "A-0"[1] == '-' && IsProjectKey("A-0"[1..1]) && AllDigits("A-0"[2..]);
    assert "Z_-9"[2] == '-' && IsProjectKey("Z_-9"[1..2]) && AllDigits("Z_-9"[3..]);
    assert "AZ09-90"[4] == '-' && IsProjectKey("AZ09-90"[1..4]) && AllDigits("AZ09-90"[5..]);
    assert "A-1x"[2..] == "1x" && "1x"[1] == 'x';
  }
}
