/**
 * The session payload and the stand-in for iron-session's `sealData` / `unsealData`.
 *
 * Sealing is modelled as a keyed, reversible text encoding: a blob names the
 * password it was sealed with and lists the five session fields in a fixed
 * order. Unsealing fails (None) on a blob that does not decode, that was
 * sealed with another password, or that has trailing garbage, which is the
 * "tampered or foreign cookie" case of the real library.
 */
module Sealing {
  import opened Wrappers

  /** The keys of `SessionData` in src/lib/authService.ts. */
  datatype Field = AccessToken | RefreshToken | CloudId | UserId | UserName

  /** A session view: the fields present and their values. */
  type SessionData = map<Field, string>

  /** The order in which a blob lists the fields. */
  const FieldOrder: seq<Field> := [AccessToken, RefreshToken, CloudId, UserId, UserName]

  /** Each character as the pair (c, '1'); the end as the pair ('.', '0'). */
  function EncodeText(s: string): string
    decreases |s|
  {
    if |s| == 0 then ['.', '0'] else [s[0], '1'] + EncodeText(s[1..])
  }

  /** Reads one encoded text off the front of `b`, returning it and what follows. */
  function DecodeText(b: string): Option<(string, string)>
    decreases |b|
  {
    if |b| < 2 then None
    else if b[1] == '0' then (if b[0] == '.' then Some(([], b[2..])) else None)
    else if b[1] == '1' then
      match DecodeText(b[2..])
      case None => None
      case Some(p) => Some(([b[0]] + p.0, p.1))
    else None
  }

  lemma {:induction false} DecodeEncodeText(s: string, rest: string)
    ensures DecodeText(EncodeText(s) + rest) == Some((s, rest))
    decreases |s|
  {
    var b := EncodeText(s) + rest;
    if |s| == 0 {
      assert b[2..] == rest;
    } else {
      assert b == [s[0], '1'] + (EncodeText(s[1..]) + rest);
      assert b[2..] == EncodeText(s[1..]) + rest;
      DecodeEncodeText(s[1..], rest);
      assert [s[0]] + s[1..] == s;
    }
  }

  function EncodeField(d: SessionData, f: Field): string {
    if f in d then ['+'] + EncodeText(d[f]) else ['-']
  }

  function EncodeFields(d: SessionData, fields: seq<Field>): string
    decreases |fields|
  {
    if |fields| == 0 then [] else EncodeField(d, fields[0]) + EncodeFields(d, fields[1..])
  }

  /** Reads the listed fields off the front of `b`, returning the data and what follows. */
  function DecodeFields(b: string, fields: seq<Field>): Option<(SessionData, string)>
    decreases |fields|
  {
    if |fields| == 0 then Some((map[], b))
    else if |b| == 0 then None
    else if b[0] == '-' then
      match DecodeFields(b[1..], fields[1..])
      case None => None
      case Some(p) => Some((p.0 - {fields[0]}, p.1))
    else if b[0] == '+' then
      match DecodeText(b[1..])
      case None => None
      case Some(t) =>
        match DecodeFields(t.1, fields[1..])
        case None => None
        case Some(p) => Some((p.0[fields[0] := t.0], p.1))
    else None
  }

  /** The part of `d` whose keys are listed in `fields`. */
  function Restrict(d: SessionData, fields: seq<Field>): SessionData {
    map k | k in d && k in fields :: d[k]
  }

  lemma RestrictCons(d: SessionData, fields: seq<Field>)
    requires |fields| > 0
    ensures fields[0] in d ==> Restrict(d, fields) == Restrict(d, fields[1..])[fields[0] := d[fields[0]]]
    ensures fields[0] !in d ==> Restrict(d, fields) == Restrict(d, fields[1..]) - {fields[0]}
  {
    assert forall k :: k in fields <==> k == fields[0] || k in fields[1..];
  }

  lemma DecodePresentField(b: string, fields: seq<Field>, v: string, tail: string, m: SessionData, rest: string)
    requires |fields| > 0 && b == ['+'] + EncodeText(v) + tail
    requires DecodeFields(tail, fields[1..]) == Some((m, rest))
    ensures DecodeFields(b, fields) == Some((m[fields[0] := v], rest))
  {
    assert b[1..] == EncodeText(v) + tail;
    DecodeEncodeText(v, tail);
  }

  lemma DecodeAbsentField(b: string, fields: seq<Field>, tail: string, m: SessionData, rest: string)
    requires |fields| > 0 && b == ['-'] + tail
    requires DecodeFields(tail, fields[1..]) == Some((m, rest))
    ensures DecodeFields(b, fields) == Some((m - {fields[0]}, rest))
  {
    assert b[1..] == tail;
  }

  lemma {:induction false} DecodeEncodeFields(d: SessionData, fields: seq<Field>, rest: string)
    ensures DecodeFields(EncodeFields(d, fields) + rest, fields) == Some((Restrict(d, fields), rest))
    decreases |fields|
  {
    if |fields| == 0 {
      assert EncodeFields(d, fields) + rest == rest;
      assert Restrict(d, fields) == map[];
    } else {
      var f := fields[0];
      var b := EncodeFields(d, fields) + rest;
      var tail := EncodeFields(d, fields[1..]) + rest;
      assert b == EncodeField(d, f) + tail;
      DecodeEncodeFields(d, fields[1..], rest);
      var m := Restrict(d, fields[1..]);
      RestrictCons(d, fields);
      if f in d {
        DecodePresentField(b, fields, d[f], tail, m, rest);
      } else {
        DecodeAbsentField(b, fields, tail, m, rest);
      }
    }
  }

  /** What `DecodeText` reads off the front of a blob is how that front was encoded. */
  lemma {:induction false} EncodeDecodeText(b: string, s: string, rest: string)
    requires DecodeText(b) == Some((s, rest))
    ensures b == EncodeText(s) + rest
    decreases |b|
  {
    if b[1] == '1' {
      var p := DecodeText(b[2..]).value;
      EncodeDecodeText(b[2..], p.0, p.1);
      assert s == [b[0]] + p.0;
      assert s[1..] == p.0;
    }
  }

  /** `EncodeFields` looks only at the listed fields. */
  lemma {:induction false} EncodeFieldsAgree(d: SessionData, e: SessionData, fields: seq<Field>)
    requires forall f :: f in fields ==> (f in d <==> f in e) && (f in d ==> d[f] == e[f])
    ensures EncodeFields(d, fields) == EncodeFields(e, fields)
    decreases |fields|
  {
    if |fields| > 0 {
      EncodeFieldsAgree(d, e, fields[1..]);
    }
  }

  /** What `DecodeFields` reads for distinct fields is how the front of `b` was encoded. */
  lemma {:induction false} EncodeDecodeFields(b: string, fields: seq<Field>, m: SessionData, rest: string)
    requires forall i, j :: 0 <= i < j < |fields| ==> fields[i] != fields[j]
    requires DecodeFields(b, fields) == Some((m, rest))
    ensures b == EncodeFields(m, fields) + rest
    decreases |fields|
  {
    if |fields| > 0 {
      var f := fields[0];
      assert forall g :: g in fields[1..] ==> g != f;
      if b[0] == '-' {
        var p := DecodeFields(b[1..], fields[1..]).value;
        EncodeDecodeFields(b[1..], fields[1..], p.0, p.1);
        EncodeFieldsAgree(p.0, m, fields[1..]);
        AbsentFront(b, fields, m, rest);
      } else {
        var t := DecodeText(b[1..]).value;
        var p := DecodeFields(t.1, fields[1..]).value;
        EncodeDecodeText(b[1..], t.0, t.1);
        EncodeDecodeFields(t.1, fields[1..], p.0, p.1);
        EncodeFieldsAgree(p.0, m, fields[1..]);
        PresentFront(b, fields, t.0, t.1, m, rest);
      }
    }
  }

  lemma AbsentFront(b: string, fields: seq<Field>, m: SessionData, rest: string)
    requires |fields| > 0 && |b| > 0 && b[0] == '-' && fields[0] !in m
    requires b[1..] == EncodeFields(m, fields[1..]) + rest
    ensures b == EncodeFields(m, fields) + rest
  {
    SplitHead(b);
  }

  lemma PresentFront(b: string, fields: seq<Field>, v: string, tail: string, m: SessionData, rest: string)
    requires |fields| > 0 && |b| > 0 && b[0] == '+' && fields[0] in m && m[fields[0]] == v
    requires b[1..] == EncodeText(v) + tail && tail == EncodeFields(m, fields[1..]) + rest
    ensures b == EncodeFields(m, fields) + rest
  {
    var e := EncodeText(v);
    var t := EncodeFields(m, fields[1..]);
    assert EncodeField(m, fields[0]) == ['+'] + e;
    SplitHead(b);
    Regroup(['+'], e, t, rest);
  }

  lemma SplitHead(b: string)
    requires |b| > 0
    ensures b == [b[0]] + b[1..]
  {
  }

  lemma Regroup(a: string, e: string, t: string, rest: string)
    ensures a + (e + (t + rest)) == (a + e) + t + rest
  {
  }

  /** `sealData(d, { password })`: the blob opens to its password, followed by the fields. */
  function Seal(d: SessionData, password: string): (blob: string)
    ensures DecodeText(blob) == Some((password, EncodeFields(d, FieldOrder)))
  {
    DecodeEncodeText(password, EncodeFields(d, FieldOrder));
    EncodeText(password) + EncodeFields(d, FieldOrder)
  }

  /** `unsealData(blob, { password })`; None where the library throws. */
  function Unseal(blob: string, password: string): Option<SessionData> {
    match DecodeText(blob)
    case None => None
    case Some(k) =>
      if k.0 != password then None
      else
        match DecodeFields(k.1, FieldOrder)
        case None => None
        case Some(p) => if p.1 == [] then Some(p.0) else None
  }

  /**
   * Whatever unseals is exactly the seal of the data it yields: a changed blob
   * never opens as some other session.
   */
  lemma UnsealIsSeal(blob: string, password: string)
    ensures Unseal(blob, password).Some? ==> Seal(Unseal(blob, password).value, password) == blob
  {
    if Unseal(blob, password).Some? {
      var k := DecodeText(blob).value;
      var p := DecodeFields(k.1, FieldOrder).value;
      EncodeDecodeText(blob, k.0, k.1);
      EncodeDecodeFields(k.1, FieldOrder, p.0, p.1);
      assert EncodeFields(p.0, FieldOrder) + [] == EncodeFields(p.0, FieldOrder);
    }
  }

  /** Unsealing a sealed value with the same password gives the value back. */
  lemma SealRoundTrip(d: SessionData, password: string)
    ensures Unseal(Seal(d, password), password) == Some(d)
  {
    var fields := EncodeFields(d, FieldOrder);
    DecodeEncodeText(password, fields);
    DecodeEncodeFields(d, FieldOrder, []);
    assert fields + [] == fields;
    forall k: Field
      ensures k in FieldOrder
    {
      match k
      case AccessToken => assert FieldOrder[0] == k;
      case RefreshToken => assert FieldOrder[1] == k;
      case CloudId => assert FieldOrder[2] == k;
      case UserId => assert FieldOrder[3] == k;
      case UserName => assert FieldOrder[4] == k;
    }
    assert Restrict(d, FieldOrder) == d;
  }

  /** A blob sealed with one password does not unseal under another. */
  lemma SealWrongPassword(d: SessionData, password: string, other: string)
    requires other != password
    ensures Unseal(Seal(d, password), other) == None
  {
    DecodeEncodeText(password, EncodeFields(d, FieldOrder));
  }
}
