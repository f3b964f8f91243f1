/**
 * The form helpers of the MPRIV calculator
 * (react-app/src/components/MPRIVCalculator.tsx): the checkbox add/remove
 * helpers, the vulnerable-groups switch, the data-subject count input with its
 * clamp, `slugify` and the unique-id loop of `handleAddTitularCategory`.
 *
 * React's state setters are left out: every helper returns the new value of the
 * field it updates. Characters are handled as ASCII.
 */
module Form {
  import opened Wrappers
  import opened Catalog
  import opened Engine

  // ---------------------------------------------------------------------------
  // Checkbox selections
  // ---------------------------------------------------------------------------

  /** No id occurs twice. */
  predicate NoDuplicates(s: seq<string>) {
    forall i, j :: 0 <= i < j < |s| ==> s[i] != s[j]
  }

  /** The index of the first occurrence of `x` in `s`. */
  function Position(s: seq<string>, x: string): (p: nat)
    requires x in s
    ensures p < |s| && s[p] == x
    ensures forall j :: 0 <= j < p ==> s[j] != x
  {
    if s[0] == x then 0 else 1 + Position(s[1..], x)
  }

  /** Dropping the last element moves no first occurrence among the rest. */
  lemma PositionOfInit(s: seq<string>)
    requires |s| > 0
    ensures forall x :: x in s[..|s| - 1] ==> Position(s, x) == Position(s[..|s| - 1], x)
  {
    forall x | x in s[..|s| - 1]
      ensures Position(s, x) == Position(s[..|s| - 1], x)
    {
      var init := s[..|s| - 1];
      var p0 := Position(init, x);
      var p1 := Position(s, x);
      assert s[p0] == init[p0] == x;
      assert p1 <= p0;
      assert init[p1] == s[p1];
    }
  }

  /**
   * `Array.from(new Set(s))`: the first occurrence of every id, in order of
   * first appearance.
   */
  function Dedup(s: seq<string>): (r: seq<string>)
    ensures NoDuplicates(r)
    ensures forall x :: x in r <==> x in s
    ensures forall i, j :: 0 <= i < j < |r| ==> Position(s, r[i]) < Position(s, r[j])
  {
    if |s| == 0 then []
    else
      var rest := Dedup(s[..|s| - 1]);
      var x := s[|s| - 1];
      assert s == s[..|s| - 1] + [x];
      PositionOfInit(s);
      if x in rest then rest else rest + [x]
  }

  /** A list without duplicates is its own deduplication. */
  lemma {:induction false} DedupOfDistinct(s: seq<string>)
    requires NoDuplicates(s)
    ensures Dedup(s) == s
  {
    if |s| > 0 {
      var init := s[..|s| - 1];
      DedupOfDistinct(init);
      assert s[|s| - 1] !in init;
      assert s == init + [s[|s| - 1]];
    }
  }

  /** Checking a box: `Array.from(new Set([...prev, id]))`. */
  function AddSelection(prev: seq<string>, id: string): (r: seq<string>)
    ensures NoDuplicates(r)
    ensures forall x :: x in r <==> x in prev || x == id
  {
    Dedup(prev + [id])
  }

  /** Unchecking a box: `prev.filter(x => x !== id)`, which drops every copy of `id`. */
  function RemoveSelection(prev: seq<string>, id: string): (r: seq<string>)
    ensures forall x :: x in r <==> x in prev && x != id
    ensures |r| <= |prev|
  {
    if |prev| == 0 then []
    else (if prev[0] == id then [] else [prev[0]]) + RemoveSelection(prev[1..], id)
  }

  /**
   * `checked ? add : remove`, shared by the three checkbox handlers: afterwards the
   * id is selected exactly when the box is checked, and every other id keeps its state.
   */
  function ToggleSelection(prev: seq<string>, id: string, checked: bool): (r: seq<string>)
    ensures id in r <==> checked
    ensures forall x :: x != id ==> (x in r <==> x in prev)
  {
    if checked then AddSelection(prev, id) else RemoveSelection(prev, id)
  }

  /**
   * On a duplicate-free list adding appends the id unless it is already there, and
   * adding twice is adding once.
   */
  lemma AddSelectionSpec(prev: seq<string>, id: string)
    ensures NoDuplicates(prev) ==>
              AddSelection(prev, id) == if id in prev then prev else prev + [id]
    ensures AddSelection(AddSelection(prev, id), id) == AddSelection(prev, id)
  {
    var s := prev + [id];
    assert s[..|s| - 1] == prev;
    if NoDuplicates(prev) {
      DedupOfDistinct(prev);
    }
    var r := AddSelection(prev, id);
    DedupOfDistinct(r);
    assert r + [id] == (r + [id])[..|r|] + [id];
  }

  /** Removing keeps a list duplicate-free, and removing an absent id changes nothing. */
  lemma {:induction false} RemoveSelectionSpec(prev: seq<string>, id: string)
    ensures NoDuplicates(prev) ==> NoDuplicates(RemoveSelection(prev, id))
    ensures id !in prev ==> RemoveSelection(prev, id) == prev
  {
    if |prev| > 0 {
      RemoveSelectionSpec(prev[1..], id);
      if NoDuplicates(prev) {
        assert NoDuplicates(prev[1..]);
        assert prev[0] !in prev[1..];
      }
      if id !in prev {
        assert prev == [prev[0]] + prev[1..];
      }
    }
  }

  /** Removing from a concatenation removes from each part. */
  lemma {:induction false} RemoveSelectionAppend(a: seq<string>, b: seq<string>, id: string)
    ensures RemoveSelection(a + b, id) == RemoveSelection(a, id) + RemoveSelection(b, id)
  {
    if |a| > 0 {
      RemoveSelectionAppend(a[1..], b, id);
      assert (a + b)[0] == a[0] && (a + b)[1..] == a[1..] + b;
    } else {
      assert a + b == b;
    }
  }

  /** A toggle keeps a duplicate-free selection duplicate-free. */
  lemma ToggleSelectionSpec(prev: seq<string>, id: string, checked: bool)
    ensures NoDuplicates(prev) ==> NoDuplicates(ToggleSelection(prev, id, checked))
  {
    RemoveSelectionSpec(prev, id);
  }

  /** Checking then unchecking an unselected id restores the selection exactly. */
  lemma ToggleRoundTrip(prev: seq<string>, id: string)
    requires NoDuplicates(prev) && id !in prev
    ensures ToggleSelection(ToggleSelection(prev, id, true), id, false) == prev
  {
    AddSelectionSpec(prev, id);
    RemoveSelectionAppend(prev, [id], id);
    RemoveSelectionSpec(prev, id);
    assert RemoveSelection([id], id) == [];
  }

  /** The vulnerable-groups switch: switching it off also clears the selected groups. */
  function ToggleVulnerables(data: FormData, checked: bool): (r: FormData)
    ensures r.tieneVulnerables == checked
    ensures r.gruposVulnerables == if checked then data.gruposVulnerables else []
    ensures r.(tieneVulnerables := data.tieneVulnerables, gruposVulnerables := data.gruposVulnerables) == data
  {
    data.(tieneVulnerables := checked,
          gruposVulnerables := if checked then data.gruposVulnerables else [])
  }

  /**
   * Switching vulnerable groups off removes the TEV contribution and nothing
   * else; switching them on leaves every contribution as it was.
   */
  lemma ToggleVulnerablesEffect(cfg: Config, data: FormData, checked: bool)
    ensures ToggleVulnerables(data, checked).tieneVulnerables == checked
    ensures !checked ==>
              ContributionsOf(cfg, ToggleVulnerables(data, checked)) == ContributionsOf(cfg, data).(tev := 0.0)
    ensures checked ==>
              ContributionsOf(cfg, ToggleVulnerables(data, checked)) == ContributionsOf(cfg, data)
  {
    var r := ToggleVulnerables(data, checked);
    assert r.titulares == data.titulares && r.titularesSeleccionados == data.titularesSeleccionados;
  }

  // ---------------------------------------------------------------------------
  // Decimal digits
  // ---------------------------------------------------------------------------

  predicate IsDigit(c: char) {
    '0' <= c <= '9'
  }

  predicate AllDigits(s: string) {
    forall i :: 0 <= i < |s| ==> IsDigit(s[i])
  }

  function DigitValue(c: char): nat
    requires IsDigit(c)
  {
    (c as int) - ('0' as int)
  }

  function DigitChar(d: nat): (c: char)
    requires d < 10
    ensures IsDigit(c) && DigitValue(c) == d
  {
    (('0' as int) + d) as char
  }

  /** The decimal numeral of `n`, as a template literal prints it. */
  function NatToString(n: nat): (r: string)
    ensures |r| > 0 && AllDigits(r)
  {
    if n < 10 then [DigitChar(n)] else NatToString(n / 10) + [DigitChar(n % 10)]
  }

  /** The value of a numeral, most significant digit first (leading zeros allowed). */
  function DigitsValue(s: string): nat
    requires AllDigits(s)
  {
    if |s| == 0 then 0 else DigitsValue(s[..|s| - 1]) * 10 + DigitValue(s[|s| - 1])
  }

  /** Reading back a printed number gives the number. */
  lemma {:induction false} NatToStringRoundTrip(n: nat)
    ensures DigitsValue(NatToString(n)) == n
  {
    if n >= 10 {
      NatToStringRoundTrip(n / 10);
      var s := NatToString(n);
      assert s[..|s| - 1] == NatToString(n / 10);
    }
  }

  /** Distinct numbers print differently. */
  lemma NatToStringInjective(j: nat, k: nat)
    ensures NatToString(j) == NatToString(k) ==> j == k
  {
    NatToStringRoundTrip(j);
    NatToStringRoundTrip(k);
  }

  /** The value of the digits after a decimal point. */
  function FracValue(s: string): (r: real)
    requires AllDigits(s)
    ensures 0.0 <= r < 1.0
  {
    if |s| == 0 then 0.0 else (DigitValue(s[0]) as real + FracValue(s[1..])) / 10.0
  }

  // ---------------------------------------------------------------------------
  // The data-subject count input
  // ---------------------------------------------------------------------------

  /**
   * `value.replace(/[^0-9.]/g, '')`: keeps only digits and dots, in order
   * (`SanitizeAppend` and `SanitizeChar` state it character by character).
   */
  function Sanitize(s: string): (r: string)
    ensures forall i :: 0 <= i < |r| ==> IsDigit(r[i]) || r[i] == '.'
    ensures AllDigits(s) ==> r == s
  {
    if |s| == 0 then ""
    else (if IsDigit(s[0]) || s[0] == '.' then [s[0]] else "") + Sanitize(s[1..])
  }

  /** The position of the first `c` in `s`. */
  function FirstIndex(s: string, c: char): (p: nat)
    requires c in s
    ensures p < |s| && s[p] == c
    ensures forall j :: 0 <= j < p ==> s[j] != c
  {
    if s[0] == c then 0 else 1 + FirstIndex(s[1..], c)
  }

  /**
   * `Number(t)` for a string of digits and dots: the empty string is 0, a
   * numeral with at most one dot and at least one digit is its value, anything
   * else is NaN (`None`).
   */
  function NumberOf(t: string): (r: Option<real>)
    requires forall i :: 0 <= i < |t| ==> IsDigit(t[i]) || t[i] == '.'
    ensures r.Some? ==> r.value >= 0.0
  {
    if '.' !in t then Some(DigitsValue(t) as real)
    else
      var p := FirstIndex(t, '.');
      var whole := t[..p];
      var frac := t[p + 1..];
      if '.' in frac || (whole == "" && frac == "") then None
      else Some(DigitsValue(whole) as real + FracValue(frac))
  }

  /** The string holds at least two dots. */
  predicate TwoDots(t: string) {
    exists i, j :: 0 <= i < j < |t| && t[i] == '.' && t[j] == '.'
  }

  /**
   * Which strings of digits and dots `Number` reads as NaN: exactly "." and those
   * with a second dot.
   */
  lemma NumberOfNaN(t: string)
    requires forall i :: 0 <= i < |t| ==> IsDigit(t[i]) || t[i] == '.'
    ensures NumberOf(t).None? <==> t == "." || TwoDots(t)
  {
    if '.' in t {
      var p := FirstIndex(t, '.');
      var frac := t[p + 1..];
      if '.' in frac {
        var k :| 0 <= k < |frac| && frac[k] == '.';
        assert t[p] == '.' && t[p + 1 + k] == '.';
      }
      if TwoDots(t) {
        var i, j :| 0 <= i < j < |t| && t[i] == '.' && t[j] == '.';
        assert frac[j - p - 1] == '.';
      }
      if t == "." {
        assert p == 0;
      }
    }
  }

  /**
   * `Number(value.replace(/[^0-9.]/g, '')) || 0`: NaN becomes 0, no count is
   * negative (a minus sign is dropped), and a plain numeral is read as its value.
   */
  function CountInput(value: string): (r: real)
    ensures r >= 0.0
    ensures AllDigits(value) ==> r == DigitsValue(value) as real
    ensures Sanitize(value) == "." || TwoDots(Sanitize(value)) ==> r == 0.0
  {
    NumberOfNaN(Sanitize(value));
    match NumberOf(Sanitize(value))
    case None => 0.0
    case Some(x) => x
  }

  /** The count stored for a category: the parsed input, clamped to the company's total. */
  function ClampCount(value: string, total: real): (r: real)
    ensures r <= total
    ensures total >= 0.0 ==> r >= 0.0
    ensures r == total || r == CountInput(value)
    ensures r <= CountInput(value)
  {
    var num := CountInput(value);
    if num > total then total else num
  }

  /** Typing a whole number stores that number, or the total when it is larger. */
  lemma ClampCountOfNat(n: nat, total: real)
    ensures ClampCount(NatToString(n), total) == if n as real > total then total else n as real
  {
    var s := NatToString(n);
    assert Sanitize(s) == s;
    NatToStringRoundTrip(n);
  }

  /** A fraction typed after the digits is read exactly: "12.5" is 12.5. */
  lemma CountInputDecimal(whole: string, frac: string)
    requires AllDigits(whole) && AllDigits(frac) && (whole != "" || frac != "")
    ensures CountInput(whole + "." + frac) == DigitsValue(whole) as real + FracValue(frac)
  {
    var t := whole + "." + frac;
    assert AllDigits(t[..|whole|]) && t[|whole|] == '.';
    assert Sanitize(t) == t by {
      SanitizeKeeps(t);
    }
    assert '.' in t;
    var p := FirstIndex(t, '.');
    assert p == |whole|;
    assert t[..p] == whole && t[p + 1..] == frac;
  }

  /** Sanitising works piece by piece: a concatenation is sanitised part by part. */
  lemma {:induction false} SanitizeAppend(a: string, b: string)
    ensures Sanitize(a + b) == Sanitize(a) + Sanitize(b)
  {
    if |a| > 0 {
      SanitizeAppend(a[1..], b);
      assert (a + b)[0] == a[0] && (a + b)[1..] == a[1..] + b;
    } else {
      assert a + b == b;
    }
  }

  /** A single character survives exactly when it is a digit or a dot. */
  lemma SanitizeChar(c: char)
    ensures Sanitize([c]) == if IsDigit(c) || c == '.' then [c] else []
  {
  }

  /** A string of digits and dots is left as it is. */
  lemma {:induction false} SanitizeKeeps(s: string)
    requires forall i :: 0 <= i < |s| ==> IsDigit(s[i]) || s[i] == '.'
    ensures Sanitize(s) == s
  {
    if |s| > 0 {
      SanitizeKeeps(s[1..]);
      assert s == [s[0]] + s[1..];
    }
  }

  // ---------------------------------------------------------------------------
  // slugify
  // ---------------------------------------------------------------------------

  /** `toLowerCase` on ASCII letters. */
  function LowerChar(c: char): char {
    if 'A' <= c <= 'Z' then ((c as int) + 32) as char else c
  }

  /**
   * `toLowerCase` on an ASCII string: no upper-case letter remains, every other
   * character stays where it was, and each upper-case letter becomes its
   * lower-case partner.
   */
  function ToLower(s: string): (r: string)
    ensures |r| == |s|
    ensures forall i :: 0 <= i < |r| ==> !('A' <= r[i] <= 'Z')
    ensures forall i :: 0 <= i < |s| && !('A' <= s[i] <= 'Z') ==> r[i] == s[i]
    ensures forall i :: 0 <= i < |s| ==> r[i] == LowerChar(s[i])
  {
    seq(|s|, i requires 0 <= i < |s| => LowerChar(s[i]))
  }

  /** Lower-casing twice is lower-casing once. */
  lemma ToLowerIdempotent(s: string)
    ensures ToLower(ToLower(s)) == ToLower(s)
  {
  }

  /** The ASCII white space `trim` removes. */
  predicate IsSpace(c: char) {
    c == ' ' || 9 <= c as int <= 13
  }

  function TrimStart(s: string): (r: string)
    ensures |r| <= |s| && r == s[|s| - |r|..]
    ensures |r| > 0 ==> !IsSpace(r[0])
    ensures forall i :: 0 <= i < |s| - |r| ==> IsSpace(s[i])
  {
    if |s| > 0 && IsSpace(s[0]) then TrimStart(s[1..]) else s
  }

  function TrimEnd(s: string): (r: string)
    ensures |r| <= |s| && r == s[..|r|]
    ensures |r| > 0 ==> !IsSpace(r[|r| - 1])
    ensures forall i :: |r| <= i < |s| ==> IsSpace(s[i])
  {
    if |s| > 0 && IsSpace(s[|s| - 1]) then TrimEnd(s[..|s| - 1]) else s
  }

  /**
   * `trim`: a slice of `s` that drops only white space, as much of it at both ends
   * as there is.
   */
  function Trim(s: string): (r: string)
    ensures exists i, j :: 0 <= i <= j <= |s| && r == s[i..j] && Trimmed(s, i, j)
    ensures |r| > 0 ==> !IsSpace(r[0]) && !IsSpace(r[|r| - 1])
    ensures (forall i :: 0 <= i < |s| ==> IsSpace(s[i])) <==> r == ""
  {
    var t := TrimStart(s);
    var r := TrimEnd(t);
    var i := |s| - |t|;
    assert r == s[i..i + |r|] && Trimmed(s, i, i + |r|);
    r
  }

  /** Everything of `s` before `i` and from `j` on is white space. */
  predicate Trimmed(s: string, i: nat, j: nat)
    requires i <= j <= |s|
  {
    (forall k :: 0 <= k < i ==> IsSpace(s[k])) && (forall k :: j <= k < |s| ==> IsSpace(s[k]))
  }

  /** The characters `[a-z0-9]` that `slugify` keeps. */
  predicate IsSlugChar(c: char) {
    'a' <= c <= 'z' || '0' <= c <= '9'
  }

  /** The characters of `s` in `[a-z0-9]`, in order. */
  function Keep(s: string): (r: string)
    ensures |r| <= |s|
  {
    if |s| == 0 then "" else (if IsSlugChar(s[0]) then [s[0]] else "") + Keep(s[1..])
  }

  /** Keeping distributes over concatenation. */
  lemma {:induction false} KeepAppend(a: string, b: string)
    ensures Keep(a + b) == Keep(a) + Keep(b)
  {
    if |a| > 0 {
      KeepAppend(a[1..], b);
      assert (a + b)[0] == a[0] && (a + b)[1..] == a[1..] + b;
    } else {
      assert a + b == b;
    }
  }

  /** White space keeps nothing. */
  lemma {:induction false} KeepOfBlank(s: string)
    requires forall k :: 0 <= k < |s| ==> IsSpace(s[k])
    ensures Keep(s) == ""
  {
    if |s| > 0 {
      KeepOfBlank(s[1..]);
    }
  }

  /** Skips the leading run of characters outside `[a-z0-9]`. */
  function DropRun(s: string): (r: string)
    ensures |r| <= |s| && r == s[|s| - |r|..]
    ensures |r| > 0 ==> IsSlugChar(r[0])
    ensures Keep(r) == Keep(s)
  {
    if |s| > 0 && !IsSlugChar(s[0]) then DropRun(s[1..]) else s
  }

  /** Characters of `[a-z0-9]` and single underscores only. */
  predicate SlugShaped(s: string) {
    && (forall i :: 0 <= i < |s| ==> IsSlugChar(s[i]) || s[i] == '_')
    && (forall i :: 0 <= i < |s| - 1 ==> !(s[i] == '_' && s[i + 1] == '_'))
  }

  /**
   * `.replace(/[^a-z0-9]+/g, '_')`: every maximal run outside `[a-z0-9]` becomes one
   * underscore, and the `[a-z0-9]` characters stay, in order.
   */
  function Collapse(s: string): (r: string)
    ensures SlugShaped(r)
    ensures Keep(r) == Keep(s)
    ensures |s| > 0 && IsSlugChar(s[0]) ==> |r| > 0 && r[0] == s[0]
    ensures |s| > 0 && !IsSlugChar(s[0]) ==> |r| > 0 && r[0] == '_'
    decreases |s|
  {
    if |s| == 0 then ""
    else if IsSlugChar(s[0]) then [s[0]] + Collapse(s[1..])
    else "_" + Collapse(DropRun(s[1..]))
  }

  /** `.replace(/^_|_$/g, '')`: drops one underscore at each end. */
  function StripUnderscores(s: string): string {
    var a := if |s| > 0 && s[0] == '_' then s[1..] else s;
    if |a| > 0 && a[|a| - 1] == '_' then a[..|a| - 1] else a
  }

  /** A slug: `[a-z0-9]` words joined by single underscores. */
  predicate IsSlug(s: string) {
    SlugShaped(s) && (|s| > 0 ==> s[0] != '_' && s[|s| - 1] != '_')
  }

  /** `slugify`: lower case, trim, collapse the runs, strip the end underscores. */
  function Slugify(s: string): (r: string)
    ensures IsSlug(r)
  {
    var collapsed := Collapse(Trim(ToLower(s)));
    StripShaped(collapsed);
    StripUnderscores(collapsed)
  }

  /** Stripping the end underscores of a slug-shaped string gives a slug. */
  lemma StripShaped(s: string)
    requires SlugShaped(s)
    ensures IsSlug(StripUnderscores(s))
  {
  }

  /** Trimming drops only white space, which `slugify` would drop anyway. */
  lemma TrimKeeps(s: string)
    ensures Keep(Trim(s)) == Keep(s)
  {
    var i, j :| 0 <= i <= j <= |s| && Trim(s) == s[i..j] && Trimmed(s, i, j);
    KeepOfTrimmed(s, i, j);
  }

  /** A slice that leaves out only white space keeps what the whole string keeps. */
  lemma KeepOfTrimmed(s: string, i: nat, j: nat)
    requires i <= j <= |s| && Trimmed(s, i, j)
    ensures Keep(s[i..j]) == Keep(s)
  {
    assert forall k :: j <= k < |s| ==> IsSpace(s[k]);
    KeepDropBack(s, j);
    var t := s[..j];
    forall k | 0 <= k < i
      ensures IsSpace(t[k])
    {
      assert t[k] == s[k];
    }
    KeepDropFront(t, i);
    assert t[i..] == s[i..j];
  }

  /** Dropping leading white space keeps the same characters. */
  lemma {:induction false} KeepDropFront(s: string, i: nat)
    requires i <= |s| && forall k :: 0 <= k < i ==> IsSpace(s[k])
    ensures Keep(s[i..]) == Keep(s)
  {
    if i > 0 {
      assert s[1..][i - 1..] == s[i..];
      KeepDropFront(s[1..], i - 1);
    }
  }

  /** Dropping trailing white space keeps the same characters. */
  lemma KeepDropBack(s: string, j: nat)
    requires j <= |s| && forall k :: j <= k < |s| ==> IsSpace(s[k])
    ensures Keep(s[..j]) == Keep(s)
  {
    assert s == s[..j] + s[j..];
    KeepAppend(s[..j], s[j..]);
    KeepOfBlank(s[j..]);
  }

  /** Stripping the end underscores drops no `[a-z0-9]` character. */
  lemma StripKeeps(s: string)
    ensures Keep(StripUnderscores(s)) == Keep(s)
  {
    var a := if |s| > 0 && s[0] == '_' then s[1..] else s;
    if |s| > 0 && s[0] == '_' {
      assert s == "_" + a;
      KeepAppend("_", a);
    }
    if |a| > 0 && a[|a| - 1] == '_' {
      assert a == a[..|a| - 1] + "_";
      KeepAppend(a[..|a| - 1], "_");
    }
  }

  /**
   * `slugify` keeps every letter and digit of the lower-cased name, in order,
   * and nothing else of it.
   */
  lemma SlugifyKeeps(s: string)
    ensures Keep(Slugify(s)) == Keep(ToLower(s))
  {
    TrimKeeps(ToLower(s));
    StripKeeps(Collapse(Trim(ToLower(s))));
  }

  /** Collapsing leaves a slug-shaped string as it is. */
  lemma {:induction false} CollapseOfShaped(s: string)
    requires SlugShaped(s)
    ensures Collapse(s) == s
    decreases |s|
  {
    if |s| > 0 {
      assert SlugShaped(s[1..]);
      CollapseOfShaped(s[1..]);
      if !IsSlugChar(s[0]) {
        assert |s| > 1 ==> IsSlugChar(s[1]);
        assert DropRun(s[1..]) == s[1..];
      }
      assert s == [s[0]] + s[1..];
    }
  }

  /** Lower-casing and trimming leave a slug-shaped string without end blanks as it is. */
  lemma LowerTrimOfShaped(s: string)
    requires SlugShaped(s)
    ensures ToLower(s) == s && Trim(s) == s
  {
    assert TrimStart(s) == s;
    assert TrimEnd(s) == s;
  }

  /** A slug is its own slug. */
  lemma SlugifyOfSlug(s: string)
    requires IsSlug(s)
    ensures Slugify(s) == s
  {
    LowerTrimOfShaped(s);
    CollapseOfShaped(s);
  }

  /** `slugify` is idempotent. */
  lemma SlugifyIdempotent(s: string)
    ensures Slugify(Slugify(s)) == Slugify(s)
  {
    SlugifyOfSlug(Slugify(s));
  }

  // ---------------------------------------------------------------------------
  // handleAddTitularCategory
  // ---------------------------------------------------------------------------

  /** `slugify(name) || 'cat'`. */
  function IdBase(name: string): (r: string)
    ensures r != "" && IsSlug(r)
  {
    var slug := Slugify(name);
    if slug == "" then "cat" else slug
  }

  /** The `k`-th id tried: the base itself, then `base_1`, `base_2`, ... */
  function Candidate(base: string, k: nat): string {
    if k == 0 then base else base + "_" + NatToString(k)
  }

  /** Distinct attempts give distinct ids. */
  lemma CandidateInjective(base: string, j: nat, k: nat)
    requires j != k
    ensures Candidate(base, j) != Candidate(base, k)
  {
    if j != 0 && k != 0 && Candidate(base, j) == Candidate(base, k) {
      assert Candidate(base, j)[|base| + 1..] == NatToString(j);
      assert Candidate(base, k)[|base| + 1..] == NatToString(k);
      NatToStringInjective(j, k);
    }
  }

  /** Every id tried for a slug base is itself a slug. */
  lemma CandidateIsSlug(base: string, k: nat)
    requires base != "" && IsSlug(base)
    ensures IsSlug(Candidate(base, k))
  {
    if k > 0 {
      var digits := NatToString(k);
      var c := Candidate(base, k);
      assert c == base + ['_'] + digits;
      forall i | 0 <= i < |c|
        ensures IsSlugChar(c[i]) || c[i] == '_'
      {
        if i > |base| {
          assert c[i] == digits[i - |base| - 1];
        }
      }
    }
  }

  /** The ids tried before the `n`-th attempt. */
  function Tried(base: string, n: nat): set<string> {
    if n == 0 then {} else Tried(base, n - 1) + {Candidate(base, n - 1)}
  }

  /** A later attempt was never tried before. */
  lemma {:induction false} NotYetTried(base: string, n: nat, m: nat)
    requires n <= m
    ensures Candidate(base, m) !in Tried(base, n)
  {
    if n > 0 {
      NotYetTried(base, n - 1, m);
      CandidateInjective(base, n - 1, m);
    }
  }

  /** `id` is the first attempt not among `existing`. */
  ghost predicate IsFirstFree(existing: set<string>, base: string, id: string) {
    exists k: nat :: Candidate(base, k) == id && id !in existing
                     && forall j :: 0 <= j < k ==> Candidate(base, j) in existing
  }

  /** The first free attempt is unique. */
  lemma FirstFreeUnique(existing: set<string>, base: string, id: string, id': string)
    requires IsFirstFree(existing, base, id) && IsFirstFree(existing, base, id')
    ensures id == id'
  {
    var k: nat :| Candidate(base, k) == id && id !in existing
                  && forall j :: 0 <= j < k ==> Candidate(base, j) in existing;
    var k': nat :| Candidate(base, k') == id' && id' !in existing
                   && forall j :: 0 <= j < k' ==> Candidate(base, j) in existing;
    assert !(k < k') && !(k' < k);
  }

  /** The `while (existingIds.has(id))` loop: tries `base`, `base_1`, `base_2`, ... */
  method FreshId(existing: set<string>, idBase: string) returns (id: string)
    ensures IsFirstFree(existing, idBase, id)
    ensures idBase != "" && IsSlug(idBase) ==> IsSlug(id)
  {
    id := idBase;
    var i: nat := 1;
    while id in existing
      invariant id == Candidate(idBase, i - 1)
      invariant forall j :: 0 <= j < i - 1 ==> Candidate(idBase, j) in existing
      invariant Tried(idBase, i - 1) <= existing
      decreases existing - Tried(idBase, i - 1)
    {
      NotYetTried(idBase, i - 1, i - 1);
      assert Tried(idBase, i) == Tried(idBase, i - 1) + {id};
      id := idBase + "_" + NatToString(i);
      i := i + 1;
    }
    assert Candidate(idBase, i - 1) == id;
    if idBase != "" && IsSlug(idBase) {
      CandidateIsSlug(idBase, i - 1);
    }
  }

  /** The ids of a list of categories. */
  function IdsOf(cats: seq<Category>): set<string> {
    set c | c in cats :: c.id
  }

  /** No two categories share an id. */
  predicate DistinctIds(cats: seq<Category>) {
    forall i, j :: 0 <= i < j < |cats| ==> cats[i].id != cats[j].id
  }

  /**
   * Adds a custom data-subject category named by the trimmed input, with the first
   * free id derived from its slug, and clears the input; a blank input changes
   * nothing. Returns the new custom list and the new input text.
   */
  method AddTitularCategory(titularCategories: seq<Category>, custom: seq<Category>, newTitularName: string)
    returns (newCustom: seq<Category>, newName: string)
    ensures Trim(newTitularName) == "" ==> newCustom == custom && newName == newTitularName
    ensures Trim(newTitularName) != "" ==>
              && newName == ""
              && |newCustom| == |custom| + 1 && newCustom[..|custom|] == custom
              && newCustom[|custom|].caption == Trim(newTitularName)
              && IsSlug(newCustom[|custom|].id)
              && IsFirstFree(IdsOf(titularCategories) + IdsOf(custom), IdBase(Trim(newTitularName)),
                             newCustom[|custom|].id)
    ensures DistinctIds(titularCategories + custom) ==> DistinctIds(titularCategories + newCustom)
  {
    var name := Trim(newTitularName);
    if name == "" {
      return custom, newTitularName;
    }
    var idBase := IdBase(name);
    var existing := IdsOf(titularCategories) + IdsOf(custom);
    var id := FreshId(existing, idBase);
    newCustom := custom + [Category(id, name)];
    newName := "";
    assert newCustom[..|custom|] == custom;
    AppendFreshKeepsDistinct(titularCategories, custom, Category(id, name));
  }

  /** Appending a category whose id is not yet used keeps the ids distinct. */
  lemma AppendFreshKeepsDistinct(cats: seq<Category>, custom: seq<Category>, c: Category)
    requires c.id !in IdsOf(cats) + IdsOf(custom)
    ensures DistinctIds(cats + custom) ==> DistinctIds(cats + (custom + [c]))
  {
    var all := cats + (custom + [c]);
    assert all == (cats + custom) + [c];
    forall i | 0 <= i < |all| - 1
      ensures all[i].id != c.id
    {
      if i < |cats| {
        assert all[i] in cats;
      } else {
        assert all[i] in custom;
      }
    }
  }
}
