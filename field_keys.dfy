/**
 * The naming convention that links a control's element id to a settings key:
 * `gridPoints` is shown in the field `grid-points` (script.js:65), and a field
 * id is turned back into its key by upper-casing every letter that follows a
 * hyphen (script.js:135, 162). Letters are ASCII; other characters pass through.
 */
module FieldKeys {

  predicate IsUpper(c: char) {
    'A' <= c <= 'Z'
  }

  predicate IsLower(c: char) {
    'a' <= c <= 'z'
  }

  function ToLower(c: char): (r: char)
    ensures IsUpper(c) ==> IsLower(r)
    ensures !IsUpper(r)
  {
    if IsUpper(c) then (c as int + 32) as char else c
  }

  function ToUpper(c: char): (r: char)
    ensures IsLower(c) ==> IsUpper(r) && ToLower(r) == c
  {
    if IsLower(c) then (c as int - 32) as char else c
  }

  predicate NoUpper(s: string) {
    forall i :: 0 <= i < |s| ==> !IsUpper(s[i])
  }

  predicate NoHyphen(s: string) {
    forall i :: 0 <= i < |s| ==> s[i] != '-'
  }

  /**
   * `key.replace(/([A-Z])/g, '-$1').toLowerCase()`: every capital becomes a
   * hyphen and its lower-case letter; the result holds no capital.
   */
  function CamelToKebab(s: string): (r: string)
    ensures |r| >= |s|
  {
    if s == [] then []
    else (if IsUpper(s[0]) then ['-', ToLower(s[0])] else [s[0]]) + CamelToKebab(s[1..])
  }

  /**
   * `id.replace(/-([a-z])/g, g => g[1].toUpperCase())`: scanning left to right,
   * each hyphen followed by a lower-case letter is replaced by that letter in
   * upper case; a string with no hyphen is returned as it is.
   */
  function KebabToCamel(s: string): (r: string)
    ensures |r| <= |s|
  {
    if s == [] then []
    else
      var n := HyphenLetterAt(s);
      (if n == 2 then [ToUpper(s[1])] else [s[0]]) + KebabToCamel(s[n..])
  }

  /** 2 when `s` starts with a hyphen and a lower-case letter (one match of the pattern), else 1. */
  function HyphenLetterAt(s: string): (n: nat)
    requires s != []
    ensures 1 <= n <= 2 && n <= |s|
    ensures n == 2 <==> |s| >= 2 && s[0] == '-' && IsLower(s[1])
  {
    if |s| >= 2 && s[0] == '-' && IsLower(s[1]) then 2 else 1
  }

  /** A field id holds no capital letter. */
  lemma {:induction false} FieldIdHasNoUpper(s: string)
    ensures NoUpper(CamelToKebab(s))
  {
    if s != [] {
      FieldIdHasNoUpper(s[1..]);
    }
  }

  /** A key without hyphens survives the trip to its field id and back. */
  lemma {:induction false} CamelRoundTrip(s: string)
    requires NoHyphen(s)
    ensures KebabToCamel(CamelToKebab(s)) == s
  {
    if s != [] {
      var rest := CamelToKebab(s[1..]);
      CamelRoundTrip(s[1..]);
      if IsUpper(s[0]) {
        var k := ['-', ToLower(s[0])] + rest;
        assert k[2..] == rest;
        assert ToUpper(ToLower(s[0])) == s[0];
      } else {
        var k := [s[0]] + rest;
        assert k[1..] == rest;
      }
    }
  }

  /** A field id survives the trip to its key and back exactly when it has no capital letter. */
  lemma RoundTripFromKebab(k: string)
    ensures CamelToKebab(KebabToCamel(k)) == k <==> NoUpper(k)
  {
    if NoUpper(k) {
      KebabRoundTrip(k);
    } else {
      FieldIdHasNoUpper(KebabToCamel(k));
    }
  }

  lemma {:induction false} KebabRoundTrip(k: string)
    requires NoUpper(k)
    ensures CamelToKebab(KebabToCamel(k)) == k
  {
    if k != [] {
      var n := HyphenLetterAt(k);
      var rest := k[n..];
      assert NoUpper(rest) by {
        forall i | 0 <= i < |rest|
          ensures !IsUpper(rest[i])
        {
          assert rest[i] == k[i + n];
        }
      }
      KebabRoundTrip(rest);
      var c := KebabToCamel(k);
      assert c[1..] == KebabToCamel(rest);
      if n == 2 {
        assert IsUpper(c[0]) && ToLower(c[0]) == k[1];
        assert CamelToKebab(c) == ['-', k[1]] + rest;
        assert k == ['-', k[1]] + rest;
      } else {
        assert !IsUpper(c[0]);
        assert CamelToKebab(c) == [k[0]] + rest;
        assert k == [k[0]] + rest;
      }
    }
  }

  /** The conversion to a field id works character by character. */
  lemma {:induction false} CamelToKebabConcat(a: string, b: string)
    ensures CamelToKebab(a + b) == CamelToKebab(a) + CamelToKebab(b)
  {
    if a == [] {
      assert a + b == b;
    } else {
      assert (a + b)[0] == a[0] && (a + b)[1..] == a[1..] + b;
      CamelToKebabConcat(a[1..], b);
    }
  }

  /**
   * A key whose only capital is `c`, between the lower-case words `p` and `q`,
   * is shown in the field `p-c'q` (c' the lower case of c), and that field id
   * converts back to the key.
   */
  lemma SingleCapitalFieldId(p: string, c: char, q: string)
    requires NoUpper(p) && NoUpper(q) && IsUpper(c)
    requires NoHyphen(p) && NoHyphen(q)
    ensures CamelToKebab(p + [c] + q) == p + ['-', ToLower(c)] + q
    ensures KebabToCamel(p + ['-', ToLower(c)] + q) == p + [c] + q
  {
    SingleCapitalKebab(p, c, q);
    NoHyphenJoin(p, c, q);
    CamelRoundTrip(p + [c] + q);
  }

  lemma SingleCapitalKebab(p: string, c: char, q: string)
    requires NoUpper(p) && NoUpper(q) && IsUpper(c)
    ensures CamelToKebab(p + [c] + q) == p + ['-', ToLower(c)] + q
  {
    CamelToKebabConcat(p + [c], q);
    CamelToKebabConcat(p, [c]);
    LowerUnchanged(p);
    LowerUnchanged(q);
    assert [c][1..] == [];
    assert CamelToKebab([c]) == ['-', ToLower(c)];
    assert p + ['-', ToLower(c)] + q == (p + ['-', ToLower(c)]) + q;
  }

  lemma NoHyphenJoin(p: string, c: char, q: string)
    requires NoHyphen(p) && NoHyphen(q) && c != '-'
    ensures NoHyphen(p + [c] + q)
  {
    var s := p + [c] + q;
    forall i | 0 <= i < |s| ensures s[i] != '-' {
      if i < |p| { assert s[i] == p[i]; }
      else if i > |p| { assert s[i] == q[i - |p| - 1]; }
    }
  }

  /** A string without capitals is its own field id. */
  lemma {:induction false} LowerUnchanged(s: string)
    requires NoUpper(s)
    ensures CamelToKebab(s) == s
  {
    if s != [] {
      LowerUnchanged(s[1..]);
    }
  }
}
