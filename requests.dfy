/**
 * What the request handlers do with a JSON body before any storage is
 * touched: `get` with and without a default, Python truthiness of strings,
 * `str.strip()`, and the two shapes of "required field" check the handlers
 * use (stop at the first missing field, or collect all blank ones in order).
 */
module Requests {
  import opened Wrappers

  /** A JSON object whose values are strings. */
  type Object = map<string, string>

  /** `request.get_json()`: no body at all, or an object. */
  type Body = Option<Object>

  /** `obj.get(key)` */
  function Get(obj: Object, key: string): Option<string>
  {
    if key in obj then Some(obj[key]) else None
  }

  /** `obj.get(key, default)` */
  function GetOr(obj: Object, key: string, default: string): string
  {
    if key in obj then obj[key] else default
  }

  /** `not v` for a value that is a string or `None`. */
  predicate Falsy(v: Option<string>)
  {
    v.None? || v.value == ""
  }

  /** The characters `str.isspace()` accepts, which are the ones `str.strip()` removes. */
  predicate IsSpace(c: char)
  {
    var n := c as int;
    (0x09 <= n <= 0x0D) || (0x1C <= n <= 0x20) || n == 0x85 || n == 0xA0 || n == 0x1680
    || (0x2000 <= n <= 0x200A) || n == 0x2028 || n == 0x2029 || n == 0x202F || n == 0x205F || n == 0x3000
  }

  /** `s.lstrip()` */
  function LStrip(s: string): (r: string)
    ensures |r| <= |s| && r == s[|s| - |r|..]
    ensures forall i :: 0 <= i < |s| - |r| ==> IsSpace(s[i])
    ensures r != [] ==> !IsSpace(r[0])
  {
    if s != [] && IsSpace(s[0]) then
      var t := LStrip(s[1..]);
      assert s[1..][|s| - 1 - |t|..] == s[|s| - |t|..];
      assert forall i :: 0 < i < |s| ==> s[1..][i - 1] == s[i];
      t
    else
      s
  }

  /** `s.rstrip()` */
  function RStrip(s: string): (r: string)
    ensures |r| <= |s| && r == s[..|r|]
    ensures forall i :: |r| <= i < |s| ==> IsSpace(s[i])
    ensures r != [] ==> !IsSpace(r[|r| - 1])
  {
    if s != [] && IsSpace(s[|s| - 1]) then
      var t := RStrip(s[..|s| - 1]);
      assert s[..|s| - 1][..|t|] == s[..|t|];
      t
    else
      s
  }

  /**
   * `s.strip()`: the result has no whitespace at either end and is empty
   * exactly when the input was all whitespace.
   */
  function Strip(s: string): (r: string)
    ensures r == [] <==> forall i :: 0 <= i < |s| ==> IsSpace(s[i])
    ensures r != [] ==> !IsSpace(r[0]) && !IsSpace(r[|r| - 1])
  {
    var l := LStrip(s);
    var r := RStrip(l);
    if r == [] then
      r
    else
      assert l[0] == s[|s| - |l|];
      r
  }

  /** `field not in obj or not obj[field]` */
  predicate Missing(obj: Object, field: string)
  {
    field !in obj || obj[field] == ""
  }

  /** The first of `fields` that is missing or empty, as the handlers' `for field in required_fields` loop finds it. */
  function FirstMissing(obj: Object, fields: seq<string>): (r: Option<string>)
    ensures r.None? <==> forall i :: 0 <= i < |fields| ==> !Missing(obj, fields[i])
    ensures r.Some? ==>
      exists i :: 0 <= i < |fields| && fields[i] == r.value && Missing(obj, fields[i])
        && forall j :: 0 <= j < i ==> !Missing(obj, fields[j])
  {
    if fields == [] then None
    else if Missing(obj, fields[0]) then Some(fields[0])
    else
      var r := FirstMissing(obj, fields[1..]);
      if r.Some? then
        var i :| 0 <= i < |fields[1..]| && fields[1..][i] == r.value && Missing(obj, fields[1..][i])
          && forall j :: 0 <= j < i ==> !Missing(obj, fields[1..][j]);
        assert fields[i + 1] == r.value && forall j :: 0 <= j < i + 1 ==> !Missing(obj, fields[j]);
        r
      else
        r
  }

  /** Outcome of the registration-style check. */
  datatype Check = NoData | Required(field: string) | Complete(obj: Object)

  /**
   * `if not data: 400 "No data provided"`, then `for field in fields: if
   * field not in data or not data[field]: 400 "<field> is required"`.
   */
  function CheckRequired(body: Body, fields: seq<string>): (r: Check)
    ensures r.NoData? <==> body.None? || body.value == map[]
    ensures r.Required? ==> body.Some? && Some(r.field) == FirstMissing(body.value, fields)
    ensures r.Complete? <==>
      body.Some? && body.value != map[] && forall i :: 0 <= i < |fields| ==> !Missing(body.value, fields[i])
    ensures r.Complete? ==> r.obj == body.value
  {
    if body.None? || body.value == map[] then NoData
    else
      match FirstMissing(body.value, fields)
      case Some(f) => Required(f)
      case None => Complete(body.value)
  }

  /**
   * The names whose value is empty, in the order of `names`: the list the
   * handlers build with one `if not v: missing.append(name)` per field.
   */
  function Blanks(names: seq<string>, values: seq<string>): (r: seq<string>)
    requires |names| == |values|
    ensures |r| <= |names|
  {
    if names == [] then []
    else
      var rest := Blanks(names[1..], values[1..]);
      if values[0] == "" then [names[0]] + rest else rest
  }

  /** Nothing is reported missing exactly when every value is non-empty. */
  lemma {:induction false} BlanksEmpty(names: seq<string>, values: seq<string>)
    requires |names| == |values|
    ensures Blanks(names, values) == [] <==> forall i :: 0 <= i < |values| ==> values[i] != ""
  {
    if names != [] {
      BlanksEmpty(names[1..], values[1..]);
      assert forall i :: 1 <= i < |values| ==> values[i] == values[1..][i - 1];
    }
  }

  /** A name is reported missing exactly when one of its positions holds an empty value. */
  lemma {:induction false} BlanksMembers(names: seq<string>, values: seq<string>, x: string)
    requires |names| == |values|
    ensures x in Blanks(names, values) <==> exists i :: 0 <= i < |names| && names[i] == x && values[i] == ""
  {
    if names != [] {
      BlanksMembers(names[1..], values[1..], x);
      if exists i :: 1 <= i < |names| && names[i] == x && values[i] == "" {
        var i :| 1 <= i < |names| && names[i] == x && values[i] == "";
        assert names[1..][i - 1] == x && values[1..][i - 1] == "";
      }
      if exists j :: 0 <= j < |names[1..]| && names[1..][j] == x && values[1..][j] == "" {
        var j :| 0 <= j < |names[1..]| && names[1..][j] == x && values[1..][j] == "";
        assert names[j + 1] == x && values[j + 1] == "";
      }
    }
  }

  /** Collecting blanks keeps the order of the names: it commutes with concatenation. */
  lemma {:induction false} BlanksConcat(n1: seq<string>, v1: seq<string>, n2: seq<string>, v2: seq<string>)
    requires |n1| == |v1| && |n2| == |v2|
    ensures Blanks(n1 + n2, v1 + v2) == Blanks(n1, v1) + Blanks(n2, v2)
  {
    if n1 == [] {
      assert n1 + n2 == n2 && v1 + v2 == v2;
    } else {
      assert (n1 + n2)[1..] == n1[1..] + n2 && (v1 + v2)[1..] == v1[1..] + v2;
      BlanksConcat(n1[1..], v1[1..], n2, v2);
    }
  }

  /** What one `if not value: missing.append(name)` contributes. */
  function Blank(name: string, value: string): seq<string>
  {
    if value == "" then [name] else []
  }

  lemma BlanksCons(names: seq<string>, values: seq<string>)
    requires |names| == |values| && names != []
    ensures Blanks(names, values) == Blank(names[0], values[0]) + Blanks(names[1..], values[1..])
  {
  }

  lemma Reassociate<T>(a: seq<T>, b: seq<T>, c: seq<T>, d: seq<T>, e: seq<T>, f: seq<T>)
    ensures a + (b + (c + (d + (e + (f + []))))) == a + b + c + d + e + f
  {
    assert f + [] == f;
    assert d + (e + f) == (d + e) + f;
    assert c + (d + e + f) == c + d + e + f;
    assert b + (c + d + e + f) == b + c + d + e + f;
    assert a + (b + c + d + e + f) == a + b + c + d + e + f;
  }

  /** Six straight-line appends, one per field, build the blanks of six fields. */
  lemma BlanksSix(names: seq<string>, values: seq<string>)
    requires |names| == 6 && |values| == 6
    ensures Blanks(names, values) ==
      Blank(names[0], values[0]) + Blank(names[1], values[1]) + Blank(names[2], values[2]) +
      Blank(names[3], values[3]) + Blank(names[4], values[4]) + Blank(names[5], values[5])
  {
    var n1, v1 := names[1..], values[1..];
    var n2, v2 := n1[1..], v1[1..];
    var n3, v3 := n2[1..], v2[1..];
    var n4, v4 := n3[1..], v3[1..];
    var n5, v5 := n4[1..], v4[1..];
    BlanksCons(names, values);
    BlanksCons(n1, v1);
    BlanksCons(n2, v2);
    BlanksCons(n3, v3);
    BlanksCons(n4, v4);
    BlanksCons(n5, v5);
    assert n5[1..] == [] && v5[1..] == [];
    assert n1[0] == names[1] && n2[0] == names[2] && n3[0] == names[3] && n4[0] == names[4] && n5[0] == names[5];
    assert v1[0] == values[1] && v2[0] == values[2] && v3[0] == values[3] && v4[0] == values[4] && v5[0] == values[5];
    Reassociate(Blank(names[0], values[0]), Blank(names[1], values[1]), Blank(names[2], values[2]),
                Blank(names[3], values[3]), Blank(names[4], values[4]), Blank(names[5], values[5]));
  }
}
