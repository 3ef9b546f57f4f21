/**
  String primitives of the JavaScript the application runs on: ASCII
  `toLowerCase`, `includes`, the regular-expression classes `\w` and `\s`,
  `split(/\s+/)` and `split(c)[0]`.
*/
module Text {
  import opened Seqs

  /** `toLowerCase` on one character; only A-Z are mapped. */
  function LowerChar(c: char): char
  {
    if 'A' <= c <= 'Z' then (c as int + 32) as char else c
  }

  /** `s.toLowerCase()`, restricted to ASCII letters. */
  function Lower(s: string): (r: string)
    ensures |r| == |s|
    ensures forall i :: 0 <= i < |s| ==> r[i] == LowerChar(s[i])
  {
    if s == [] then [] else [LowerChar(s[0])] + Lower(s[1..])
  }

  predicate IsUpper(c: char)
  {
    'A' <= c <= 'Z'
  }

  /** The regular-expression class `\w`: ASCII letters, digits and underscore. */
  predicate IsWordChar(c: char)
  {
    ('a' <= c <= 'z') || ('A' <= c <= 'Z') || ('0' <= c <= '9') || c == '_'
  }

  /** The characters of the regular-expression class `\s`: ECMAScript white space and line terminators. */
  const WhiteSpace: set<char> := {'\U{9}', '\U{A}', '\U{B}', '\U{C}', '\U{D}', '\U{20}', '\U{A0}', '\U{1680}', '\U{2000}', '\U{2001}', '\U{2002}', '\U{2003}', '\U{2004}', '\U{2005}', '\U{2006}', '\U{2007}', '\U{2008}', '\U{2009}', '\U{200A}', '\U{2028}', '\U{2029}', '\U{202F}', '\U{205F}', '\U{3000}', '\U{FEFF}'}

  predicate IsSpace(c: char)
  {
    c in WhiteSpace
  }

  /** `t` occurs in `s` at position 0. */
  predicate StartsWith(s: string, t: string)
  {
    |t| <= |s| && s[..|t|] == t
  }

  /** `s.includes(t)`, searching from the left. */
  predicate Contains(s: string, t: string)
    decreases |s|
  {
    StartsWith(s, t) || (s != [] && Contains(s[1..], t))
  }

  /** `t` occurs in `s` starting at position `i`. */
  predicate OccursAt(s: string, t: string, i: int)
  {
    0 <= i && i + |t| <= |s| && s[i..i + |t|] == t
  }

  /** `Contains` is the existence of a position where `t` occurs. */
  lemma {:induction false} ContainsIffOccurs(s: string, t: string)
    ensures Contains(s, t) <==> exists i :: OccursAt(s, t, i)
    decreases |s|
  {
    if StartsWith(s, t) {
      assert OccursAt(s, t, 0);
    } else if s != [] {
      ContainsIffOccurs(s[1..], t);
      if Contains(s[1..], t) {
        var i :| OccursAt(s[1..], t, i);
        assert s[i + 1..i + 1 + |t|] == s[1..][i..i + |t|];
        assert OccursAt(s, t, i + 1);
      }
      if exists i :: OccursAt(s, t, i) {
        var i :| OccursAt(s, t, i);
        assert i != 0;
        assert s[1..][i - 1..i - 1 + |t|] == s[i..i + |t|];
        assert OccursAt(s[1..], t, i - 1);
      }
    } else {
      assert forall i :: !OccursAt(s, t, i);
    }
  }

  /** A string lacking one of the characters of `t` does not include `t`. */
  lemma MissingCharNotContained(s: string, t: string, c: char)
    requires c in t && c !in s
    ensures !Contains(s, t)
  {
    ContainsIffOccurs(s, t);
    var k :| 0 <= k < |t| && t[k] == c;
    forall i | 0 <= i && i + |t| <= |s| ensures !OccursAt(s, t, i) {
      assert s[i..i + |t|][k] == s[i + k];
    }
  }

  /** `t` found at position `i` is included. */
  lemma OccursContained(s: string, t: string, i: int)
    requires OccursAt(s, t, i)
    ensures Contains(s, t)
  {
    ContainsIffOccurs(s, t);
  }

  /** Every string includes the empty string. */
  lemma ContainsEmpty(s: string)
    ensures Contains(s, "")
  {
  }

  /** The characters `[^\w\s]` does not match. */
  predicate IsWordOrSpace(c: char)
  {
    IsWordChar(c) || IsSpace(c)
  }

  /**
    Removes every character that is neither `\w` nor `\s`:
    `replace(/[^\w\s]/g, "")` keeps the other characters, in order.
  */
  function KeepWordAndSpace(s: string): (r: string)
    ensures r == Filter(s, IsWordOrSpace)
    ensures forall c :: c in r ==> IsWordChar(c) || IsSpace(c)
    ensures |r| <= |s|
  {
    if s == [] then []
    else (if IsWordChar(s[0]) || IsSpace(s[0]) then [s[0]] else []) + KeepWordAndSpace(s[1..])
  }

  /** The characters of `s` that are not white space. */
  function NonSpace(s: string): string
  {
    if s == [] then [] else (if IsSpace(s[0]) then [] else [s[0]]) + NonSpace(s[1..])
  }

  /** Length of the run of white space that starts `s`. */
  function SpaceRun(s: string): (n: nat)
    ensures n <= |s|
    ensures forall j :: 0 <= j < n ==> IsSpace(s[j])
    ensures n < |s| ==> !IsSpace(s[n])
  {
    if s == [] || !IsSpace(s[0]) then 0 else 1 + SpaceRun(s[1..])
  }

  /**
    `s.split(/\s+/)`: the maximal runs of non-white-space characters; leading
    or trailing white space yields an empty first or last field.
  */
  function SplitWs(s: string): (r: seq<string>)
    ensures |r| >= 1
  {
    Fields(s, [])
  }

  /** The fields of `s`, the first of which begins with the partial field `cur`. */
  function Fields(s: string, cur: string): (r: seq<string>)
    ensures |r| >= 1
    decreases |s|
  {
    if s == [] then [cur]
    else if IsSpace(s[0]) then [cur] + Fields(s[SpaceRun(s)..], [])
    else Fields(s[1..], cur + [s[0]])
  }

  function Concat(ss: seq<string>): string
  {
    if ss == [] then [] else ss[0] + Concat(ss[1..])
  }

  lemma {:induction false} NonSpaceAppend(a: string, b: string)
    ensures NonSpace(a + b) == NonSpace(a) + NonSpace(b)
  {
    if a == [] {
      assert a + b == b;
    } else {
      assert (a + b)[0] == a[0];
      assert (a + b)[1..] == a[1..] + b;
      NonSpaceAppend(a[1..], b);
    }
  }

  lemma {:induction false} NonSpaceOfSpaces(s: string)
    requires forall c :: c in s ==> IsSpace(c)
    ensures NonSpace(s) == []
  {
    if s != [] {
      NonSpaceOfSpaces(s[1..]);
    }
  }

  lemma ConcatCons(x: string, r: seq<string>)
    ensures Concat([x] + r) == x + Concat(r)
  {
    assert ([x] + r)[1..] == r;
  }

  /** Skipping a run of white space skips no other character. */
  lemma SkipSpaceRun(s: string)
    ensures NonSpace(s[SpaceRun(s)..]) == NonSpace(s)
  {
    var k := SpaceRun(s);
    assert s == s[..k] + s[k..];
    NonSpaceAppend(s[..k], s[k..]);
    NonSpaceOfSpaces(s[..k]);
  }

  /** No field contains white space. */
  lemma {:induction false} FieldsNoSpace(s: string, cur: string)
    requires forall c :: c in cur ==> !IsSpace(c)
    ensures forall k, c :: 0 <= k < |Fields(s, cur)| && c in Fields(s, cur)[k] ==> !IsSpace(c)
    decreases |s|
  {
    if s == [] {
    } else if IsSpace(s[0]) {
      var rest := s[SpaceRun(s)..];
      FieldsNoSpace(rest, []);
      var r := [cur] + Fields(rest, []);
      assert forall k :: 1 <= k < |r| ==> r[k] == Fields(rest, [])[k - 1];
    } else {
      FieldsNoSpace(s[1..], cur + [s[0]]);
    }
  }

  /** The fields hold the partial field followed by every non-white-space character of `s`. */
  lemma {:induction false} FieldsConcat(s: string, cur: string)
    ensures Concat(Fields(s, cur)) == cur + NonSpace(s)
    decreases |s|
  {
    if s == [] {
      ConcatCons(cur, []);
    } else if IsSpace(s[0]) {
      var rest := s[SpaceRun(s)..];
      FieldsConcat(rest, []);
      ConcatCons(cur, Fields(rest, []));
      SkipSpaceRun(s);
    } else {
      FieldsConcat(s[1..], cur + [s[0]]);
    }
  }

  /**
    The fields of `split(/\s+/)` contain no white space, and together they
    hold exactly the non-white-space characters of `s`, in order.
  */
  lemma SplitWsFields(s: string)
    ensures forall k, c :: 0 <= k < |SplitWs(s)| && c in SplitWs(s)[k] ==> !IsSpace(c)
    ensures Concat(SplitWs(s)) == NonSpace(s)
  {
    FieldsNoSpace(s, []);
    FieldsConcat(s, []);
  }

  /** The fields joined by the separators: `fields[0] + seps[0] + fields[1] + ...`. */
  function Join(fields: seq<string>, seps: seq<string>): string
    requires |fields| == |seps| + 1
  {
    fields[0] + JoinRest(fields[1..], seps)
  }

  /** `seps[0] + fields[0] + seps[1] + fields[1] + ...`. */
  function JoinRest(fields: seq<string>, seps: seq<string>): string
    requires |fields| == |seps|
  {
    if seps == [] then [] else seps[0] + fields[0] + JoinRest(fields[1..], seps[1..])
  }

  /**
    `s` cut at maximal runs of white space: the fields hold no white space,
    each separator is a non-empty run of white space, only the first and the
    last field may be empty, and the fields and separators in turn make up `s`.
  */
  ghost predicate SplitsAt(s: string, fields: seq<string>, seps: seq<string>)
  {
    && |fields| == |seps| + 1
    && (forall k, c :: 0 <= k < |fields| && c in fields[k] ==> !IsSpace(c))
    && (forall k :: 0 <= k < |seps| ==> seps[k] != [])
    && (forall k, c :: 0 <= k < |seps| && c in seps[k] ==> IsSpace(c))
    && (forall k :: 0 < k < |fields| - 1 ==> fields[k] != [])
    && s == Join(fields, seps)
  }

  /** The fields of `s` after the partial field `cur` are its maximal runs of non-white space. */
  lemma {:induction false} FieldsSplit(s: string, cur: string) returns (seps: seq<string>)
    requires forall c :: c in cur ==> !IsSpace(c)
    ensures SplitsAt(cur + s, Fields(s, cur), seps)
    ensures cur == [] && s != [] && !IsSpace(s[0]) ==> Fields(s, cur)[0] != []
    decreases |s|
  {
    if s == [] {
      seps := [];
      assert cur + s == cur;
    } else if IsSpace(s[0]) {
      var k := SpaceRun(s);
      var rest := s[k..];
      var tail := FieldsSplit(rest, []);
      assert [] + rest == rest;
      SpaceStep(s, cur, k, Fields(rest, []), tail);
      seps := [s[..k]] + tail;
    } else {
      var cur' := cur + [s[0]];
      seps := FieldsSplit(s[1..], cur');
      assert cur' + s[1..] == cur + s;
      FieldsHead(s[1..], cur');
    }
  }

  /** The white-space branch of `FieldsSplit`, over an abstract cut of the rest. */
  lemma SpaceStep(s: string, cur: string, k: nat, f: seq<string>, tail: seq<string>)
    requires 1 <= k <= |s| && forall j :: 0 <= j < k ==> IsSpace(s[j])
    requires forall c :: c in cur ==> !IsSpace(c)
    requires SplitsAt(s[k..], f, tail)
    requires |f| > 1 ==> f[0] != []
    ensures SplitsAt(cur + s, [cur] + f, [s[..k]] + tail)
  {
    assert forall c :: c in s[..k] ==> IsSpace(c);
    PrependSplit(s[..k], s[k..], cur, f, tail);
    assert s == s[..k] + s[k..];
    assert cur + s == cur + s[..k] + s[k..];
  }

  /** A field and a run of white space in front of a cut give a cut. */
  lemma PrependSplit(sp: string, t: string, cur: string, fields: seq<string>, seps: seq<string>)
    requires sp != [] && forall c :: c in sp ==> IsSpace(c)
    requires forall c :: c in cur ==> !IsSpace(c)
    requires SplitsAt(t, fields, seps)
    requires |fields| > 1 ==> fields[0] != []
    ensures SplitsAt(cur + sp + t, [cur] + fields, [sp] + seps)
  {
    var f, p := [cur] + fields, [sp] + seps;
    forall j, c | 0 <= j < |p| && c in p[j] ensures IsSpace(c) {
      if j > 0 {
        assert p[j] == seps[j - 1];
      }
    }
    forall j | 0 <= j < |p| ensures p[j] != [] {
      if j > 0 {
        assert p[j] == seps[j - 1];
      }
    }
    forall j, c | 0 <= j < |f| && c in f[j] ensures !IsSpace(c) {
      if j > 0 {
        assert f[j] == fields[j - 1];
      }
    }
    forall j | 0 < j < |f| - 1 ensures f[j] != [] {
      assert f[j] == fields[j - 1];
    }
    assert f[1..] == fields;
    assert JoinRest(fields, p) == sp + fields[0] + JoinRest(fields[1..], seps);
  }

  /** The first field begins with the partial field. */
  lemma {:induction false} FieldsHead(s: string, cur: string)
    ensures |Fields(s, cur)[0]| >= |cur|
    decreases |s|
  {
    if s != [] && !IsSpace(s[0]) {
      FieldsHead(s[1..], cur + [s[0]]);
    }
  }

  /** `split(/\s+/)` cuts at the maximal runs of white space. */
  lemma SplitWsRuns(s: string) returns (seps: seq<string>)
    ensures SplitsAt(s, SplitWs(s), seps)
  {
    seps := FieldsSplit(s, []);
    assert [] + s == s;
  }

  /** A run of white space followed by a non-white-space character or nothing is the whole leading run. */
  lemma {:induction false} SpaceRunOf(sp: string, t: string)
    requires forall c :: c in sp ==> IsSpace(c)
    requires t != [] ==> !IsSpace(t[0])
    ensures SpaceRun(sp + t) == |sp|
    decreases |sp|
  {
    if sp == [] {
      assert sp + t == t;
    } else {
      assert sp[0] in sp;
      assert forall c :: c in sp[1..] ==> c in sp;
      assert (sp + t)[1..] == sp[1..] + t;
      SpaceRunOf(sp[1..], t);
    }
  }

  /** How a cut begins: with its first field's first character, or with white space, or not at all. */
  lemma JoinHead(s: string, fields: seq<string>, seps: seq<string>)
    requires SplitsAt(s, fields, seps)
    ensures fields[0] != [] ==> s != [] && s[0] == fields[0][0] && !IsSpace(s[0])
    ensures fields[0] == [] && seps != [] ==> s != [] && IsSpace(s[0])
    ensures fields[0] == [] && seps == [] ==> s == []
  {
    var rest := JoinRest(fields[1..], seps);
    assert s == fields[0] + rest;
    if fields[0] != [] {
      assert fields[0][0] in fields[0];
    } else if seps != [] {
      assert rest == seps[0] + fields[1] + JoinRest(fields[2..], seps[1..]) by {
        assert fields[1..][1..] == fields[2..];
      }
      assert seps[0][0] in seps[0];
    }
  }

  /** Dropping the leading white-space run and the empty first field of a cut leaves a cut. */
  lemma DropSeparator(s: string, fields: seq<string>, seps: seq<string>) returns (t: string)
    requires SplitsAt(s, fields, seps) && fields[0] == [] && seps != []
    ensures s == seps[0] + t && SplitsAt(t, fields[1..], seps[1..])
    ensures t != [] ==> !IsSpace(t[0])
  {
    t := Join(fields[1..], seps[1..]);
    assert JoinRest(fields[1..], seps) == seps[0] + t by {
      assert fields[1..][1..] == fields[2..];
    }
    assert s == seps[0] + t;
    forall k, c | 0 <= k < |seps[1..]| && c in seps[1..][k] ensures IsSpace(c) {
      assert seps[1..][k] == seps[k + 1];
    }
    forall k | 0 <= k < |seps[1..]| ensures seps[1..][k] != [] {
      assert seps[1..][k] == seps[k + 1];
    }
    forall k | 0 < k < |fields[1..]| - 1 ensures fields[1..][k] != [] {
      assert fields[1..][k] == fields[k + 1];
    }
    forall k, c | 0 <= k < |fields[1..]| && c in fields[1..][k] ensures !IsSpace(c) {
      assert fields[1..][k] == fields[k + 1];
    }
    if |fields| > 2 {
      assert fields[1] != [];
    }
    JoinHead(t, fields[1..], seps[1..]);
  }

  /** Dropping the first character of a non-empty first field leaves a cut. */
  lemma DropChar(s: string, fields: seq<string>, seps: seq<string>)
    requires SplitsAt(s, fields, seps) && fields[0] != []
    ensures s != [] && SplitsAt(s[1..], [fields[0][1..]] + fields[1..], seps)
  {
    var f' := [fields[0][1..]] + fields[1..];
    assert f'[1..] == fields[1..];
    assert s == fields[0] + JoinRest(fields[1..], seps);
    assert s[1..] == Join(f', seps);
    forall k, c | 0 <= k < |f'| && c in f'[k] ensures !IsSpace(c) {
      if k == 0 {
        assert c in fields[0];
      } else {
        assert f'[k] == fields[k];
      }
    }
    forall k | 0 < k < |f'| - 1 ensures f'[k] != [] {
      assert f'[k] == fields[k];
    }
  }

  /** Any cut of `s` at maximal runs of white space is the one `Fields` makes after `cur`. */
  lemma {:induction false} FieldsUnique(s: string, cur: string, fields: seq<string>, seps: seq<string>)
    requires SplitsAt(s, fields, seps)
    ensures Fields(s, cur) == [cur + fields[0]] + fields[1..]
    decreases |s|
  {
    JoinHead(s, fields, seps);
    var f0 := fields[0];
    if f0 == [] && seps == [] {
      assert cur + f0 == cur;
      assert fields[1..] == [];
    } else if f0 == [] {
      var t := DropSeparator(s, fields, seps);
      SpaceRunOf(seps[0], t);
      assert s[|seps[0]|..] == t;
      FieldsUnique(t, [], fields[1..], seps[1..]);
      assert [] + fields[1] == fields[1];
      assert cur + f0 == cur;
      assert [fields[1]] + fields[2..] == fields[1..];
    } else {
      DropChar(s, fields, seps);
      var fields' := [f0[1..]] + fields[1..];
      FieldsUnique(s[1..], cur + [s[0]], fields', seps);
      assert (cur + [s[0]]) + f0[1..] == cur + f0;
      assert fields'[1..] == fields[1..];
    }
  }

  /** `split(/\s+/)` is the only cut of `s` at maximal runs of white space. */
  lemma SplitWsUnique(s: string, fields: seq<string>, seps: seq<string>)
    requires SplitsAt(s, fields, seps)
    ensures SplitWs(s) == fields
  {
    FieldsUnique(s, [], fields, seps);
    assert [] + fields[0] == fields[0];
    assert [fields[0]] + fields[1..] == fields;
  }

  /** `s.split(c)[0]`: the part of `s` before the first `c`, or all of `s`. */
  function Before(s: string, c: char): (r: string)
    ensures c !in r
    ensures StartsWith(s, r)
    ensures |r| < |s| ==> s[|r|] == c
    ensures c !in s ==> r == s
  {
    if s == [] then []
    else if s[0] == c then []
    else [s[0]] + Before(s[1..], c)
  }

  /** The value of a decimal digit. */
  function DigitValue(c: char): int
  {
    c as int - '0' as int
  }

  /** The number a string of decimal digits denotes, most significant digit first. */
  function DigitsValue(s: string): int
  {
    if s == [] then 0 else 10 * DigitsValue(s[..|s| - 1]) + DigitValue(s[|s| - 1])
  }

  /**
    Decimal digits of `n`, as JavaScript prints an integer: they denote `n`,
    and there is no leading zero except in "0" itself.
  */
  function NatToString(n: nat): (r: string)
    ensures |r| >= 1
    ensures forall c :: c in r ==> '0' <= c <= '9'
    ensures DigitsValue(r) == n
    ensures r[0] == '0' ==> r == "0"
    decreases n
  {
    var d := ["0123456789"[n % 10]];
    assert DigitValue(d[0]) == n % 10 by { DigitAt(n % 10); }
    if n < 10 then d
    else
      var r := NatToString(n / 10) + d;
      assert r[..|r| - 1] == NatToString(n / 10);
      r
  }

  /** The digit at position `k` of "0123456789" has the value `k`. */
  lemma DigitAt(k: nat)
    requires k < 10
    ensures DigitValue("0123456789"[k]) == k
  {
  }

  /** Lower-casing a string with no upper-case letter changes nothing. */
  lemma LowerOfLowerCase(s: string)
    requires forall c :: c in s ==> !IsUpper(c)
    ensures Lower(s) == s
  {
    assert forall i :: 0 <= i < |s| ==> s[i] in s;
  }

  /** Removing punctuation from a string of word characters and white space changes nothing. */
  lemma {:induction false} KeepWordAndSpaceOfClean(s: string)
    requires forall c :: c in s ==> IsWordChar(c) || IsSpace(c)
    ensures KeepWordAndSpace(s) == s
  {
    if s != [] {
      assert s[0] in s;
      assert forall c :: c in s[1..] ==> c in s;
      KeepWordAndSpaceOfClean(s[1..]);
      assert s == [s[0]] + s[1..];
    }
  }
}
