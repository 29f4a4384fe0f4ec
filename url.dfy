/** Query strings as `URLSearchParams.toString()` writes them: each name and
    value form-encoded (UTF-8 bytes, space as `+`, everything but `*-._`,
    digits and letters as `%XX`), joined as `name=value` pairs with `&`. */
module Url {
  import opened Text
  import opened Lists

  /** The UTF-8 encoding of one Unicode scalar value. */
  function Utf8Bytes(c: char): (bs: seq<nat>)
    ensures 1 <= |bs| <= 4
    ensures forall i :: 0 <= i < |bs| ==> bs[i] < 256
    ensures c as int < 0x80 ==> bs == [c as int]
    ensures c as int >= 0x80 ==> forall i :: 0 <= i < |bs| ==> bs[i] >= 0x80
  {
    var v := c as int;
    if v < 0x80 then [v]
    else if v < 0x800 then [0xC0 + v / 0x40, 0x80 + v % 0x40]
    else if v < 0x10000 then [0xE0 + v / 0x1000, 0x80 + (v / 0x40) % 0x40, 0x80 + v % 0x40]
    else [0xF0 + v / 0x40000, 0x80 + (v / 0x1000) % 0x40, 0x80 + (v / 0x40) % 0x40, 0x80 + v % 0x40]
  }

  /** Bytes the form serializer copies as they are. */
  predicate IsFormSafe(b: nat) {
    || b == 0x2A || b == 0x2D || b == 0x2E || b == 0x5F
    || (0x30 <= b <= 0x39) || (0x41 <= b <= 0x5A) || (0x61 <= b <= 0x7A)
  }

  function HexDigit(d: nat): (c: char)
    requires d < 16
    ensures IsDigit(c) || 'A' <= c <= 'F'
  {
    if d < 10 then ('0' as int + d) as char else ('A' as int + d - 10) as char
  }

  /** Neither pair separator occurs in `s`. */
  predicate NoSeparator(s: string) {
    forall i :: 0 <= i < |s| ==> s[i] != '&' && s[i] != '='
  }

  function EncodeByte(b: nat): (s: string)
    requires b < 256
    ensures NoSeparator(s)
  {
    if b == 0x20 then "+"
    else if IsFormSafe(b) then [b as char]
    else ['%', HexDigit(b / 16), HexDigit(b % 16)]
  }

  function EncodeBytes(bs: seq<nat>): (s: string)
    requires forall i :: 0 <= i < |bs| ==> bs[i] < 256
    ensures NoSeparator(s)
  {
    if bs == [] then "" else EncodeByte(bs[0]) + EncodeBytes(bs[1..])
  }

  /** The application/x-www-form-urlencoded serialisation of one name or
      value: whatever the input, the output holds no `&` and no `=`. */
  function FormEncode(s: string): (r: string)
    ensures NoSeparator(r)
  {
    if s == [] then "" else EncodeBytes(Utf8Bytes(s[0])) + FormEncode(s[1..])
  }

  predicate IsFormSafeText(s: string) {
    forall i :: 0 <= i < |s| ==> s[i] as int < 0x80 && IsFormSafe(s[i] as int)
  }

  /** Names and values made only of safe characters go through unchanged. */
  lemma {:induction false} FormEncodeSafe(s: string)
    requires IsFormSafeText(s)
    ensures FormEncode(s) == s
  {
    if s != [] {
      FormEncodeSafe(s[1..]);
      assert EncodeBytes([s[0] as int]) == [s[0]];
    }
  }

  /** Decimal renderings of integers are safe text. */
  lemma DecimalIsFormSafe(i: int)
    ensures IsFormSafeText(IntToDecimal(i))
  {
  }

  /** `parts` joined with `sep` between consecutive parts. */
  function Join(parts: seq<string>, sep: char): string {
    if |parts| == 0 then ""
    else if |parts| == 1 then parts[0]
    else parts[0] + [sep] + Join(parts[1..], sep)
  }

  /** `String.prototype.split` on one character: at least one part. */
  function Split(s: string, sep: char): (parts: seq<string>)
    ensures |parts| >= 1
    decreases |s|
  {
    if sep !in s then [s]
    else
      var k := IndexOf(s, sep);
      [s[..k]] + Split(s[k + 1..], sep)
  }

  /** Splitting undoes joining when no part contains the separator. */
  lemma {:induction false} SplitJoin(parts: seq<string>, sep: char)
    requires |parts| >= 1
    requires forall i :: 0 <= i < |parts| ==> sep !in parts[i]
    ensures Split(Join(parts, sep), sep) == parts
  {
    if |parts| > 1 {
      var s := Join(parts, sep);
      var p0 := parts[0];
      assert s == p0 + [sep] + Join(parts[1..], sep);
      assert sep in s by { assert s[|p0|] == sep; }
      var k := IndexOf(s, sep);
      assert k == |p0| by {
        assert s[..|p0|] == p0;
      }
      assert s[..k] == p0;
      assert s[k + 1..] == Join(parts[1..], sep);
      SplitJoin(parts[1..], sep);
    }
  }

  /** One `name=value` pair, encoded. */
  function EncodePair(pair: (string, string)): string {
    FormEncode(pair.0) + "=" + FormEncode(pair.1)
  }

  lemma EncodePairNoAmpersand(pair: (string, string))
    ensures '&' !in EncodePair(pair)
  {
    var k, v := FormEncode(pair.0), FormEncode(pair.1);
    var e := EncodePair(pair);
    forall j | 0 <= j < |e| ensures e[j] != '&' {
      if j < |k| { assert e[j] == k[j]; }
      else if j > |k| { assert e[j] == v[j - |k| - 1]; }
    }
  }

  /** `URLSearchParams.toString()` for the appended pairs, in order. */
  function SerializeQuery(pairs: seq<(string, string)>): (q: string)
    ensures q == "" <==> pairs == []
  {
    if pairs == [] then ""
    else if |pairs| == 1 then EncodePair(pairs[0])
    else EncodePair(pairs[0]) + "&" + SerializeQuery(pairs[1..])
  }

  /** The query string determines the pairs: splitting on `&` and then on
      `=` gives back every encoded name and value, in order. */
  lemma {:induction false} QueryRoundTrip(pairs: seq<(string, string)>)
    requires pairs != []
    ensures Split(SerializeQuery(pairs), '&') == seq(|pairs|, i requires 0 <= i < |pairs| => EncodePair(pairs[i]))
    ensures forall i :: 0 <= i < |pairs| ==>
      Split(EncodePair(pairs[i]), '=') == [FormEncode(pairs[i].0), FormEncode(pairs[i].1)]
  {
    var encoded := seq(|pairs|, i requires 0 <= i < |pairs| => EncodePair(pairs[i]));
    SerializeIsJoin(pairs);
    forall i | 0 <= i < |pairs|
      ensures '&' !in encoded[i]
      ensures Split(EncodePair(pairs[i]), '=') == [FormEncode(pairs[i].0), FormEncode(pairs[i].1)]
    {
      var k, v := FormEncode(pairs[i].0), FormEncode(pairs[i].1);
      assert encoded[i] == k + "=" + v;
      EncodePairNoAmpersand(pairs[i]);
      assert '=' !in k && '=' !in v by {
        forall j | 0 <= j < |k| ensures k[j] != '=' { }
        forall j | 0 <= j < |v| ensures v[j] != '=' { }
      }
      assert Join([k, v], '=') == k + "=" + v;
      SplitJoin([k, v], '=');
    }
    SplitJoin(encoded, '&');
  }

  lemma {:induction false} SerializeIsJoin(pairs: seq<(string, string)>)
    ensures SerializeQuery(pairs) == Join(seq(|pairs|, i requires 0 <= i < |pairs| => EncodePair(pairs[i])), '&')
  {
    if |pairs| > 1 {
      SerializeIsJoin(pairs[1..]);
      var encoded := seq(|pairs|, i requires 0 <= i < |pairs| => EncodePair(pairs[i]));
      assert encoded[1..] == seq(|pairs| - 1, i requires 0 <= i < |pairs| - 1 => EncodePair(pairs[1..][i]));
    }
  }
}
