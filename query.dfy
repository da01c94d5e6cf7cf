/**
 * The URLs the API handlers send to the document store: a path under
 * `http://localhost:3001` and, for the list routes, a query string built
 * with `URLSearchParams` (application/x-www-form-urlencoded: each pair
 * `name=value`, pairs joined by `&`, characters outside `*-._` and the
 * ASCII letters and digits written as `+` for a space or as `%XX` per
 * UTF-8 byte).
 */
module Query {
  import opened Types

  const StoreBase := "http://localhost:3001"

  /** Characters the form-urlencoded serializer writes as they are. */
  predicate Unescaped(c: char)
  {
    c == '*' || c == '-' || c == '.' || c == '_' || ('0' <= c <= '9') || ('A' <= c <= 'Z') || ('a' <= c <= 'z')
  }

  /** Characters that can appear in a serialized name or value. */
  predicate UrlSafe(c: char)
  {
    Unescaped(c) || c == '+' || c == '%'
  }

  function HexDigit(d: nat): (c: char)
    requires d < 16
    ensures Unescaped(c)
  {
    "0123456789ABCDEF"[d]
  }

  /** The UTF-8 encoding of one character. */
  function Utf8(c: char): (bytes: seq<nat>)
    ensures 1 <= |bytes| <= 4
    ensures forall i :: 0 <= i < |bytes| ==> bytes[i] < 256
  {
    var n := c as int;
    if n < 0x80 then [n]
    else if n < 0x800 then [0xC0 + n / 64, 0x80 + n % 64]
    else if n < 0x10000 then [0xE0 + n / 4096, 0x80 + (n / 64) % 64, 0x80 + n % 64]
    else [0xF0 + n / 262144, 0x80 + (n / 4096) % 64, 0x80 + (n / 64) % 64, 0x80 + n % 64]
  }

  function PercentBytes(bytes: seq<nat>): (s: string)
    requires forall i :: 0 <= i < |bytes| ==> bytes[i] < 256
    ensures |s| == 3 * |bytes|
    ensures forall i :: 0 <= i < |s| ==> UrlSafe(s[i])
  {
    if bytes == [] then []
    else ['%', HexDigit(bytes[0] / 16), HexDigit(bytes[0] % 16)] + PercentBytes(bytes[1..])
  }

  function EncodeChar(c: char): (s: string)
    ensures 1 <= |s| && forall i :: 0 <= i < |s| ==> UrlSafe(s[i])
    ensures Unescaped(c) ==> s == [c]
  {
    if Unescaped(c) then [c]
    else if c == ' ' then "+"
    else PercentBytes(Utf8(c))
  }

  /**
   * The three ways a character is written: itself when unescaped, `+` for a
   * space, and otherwise a `%XX` triple for each byte of its UTF-8 encoding.
   */
  lemma {:induction false} EncodeCharCases(c: char)
    ensures Unescaped(c) ==> Encode([c]) == [c]
    ensures c == ' ' ==> Encode([c]) == "+"
    ensures !Unescaped(c) && c != ' ' ==> |Encode([c])| == 3 * |Utf8(c)| && Encode([c])[0] == '%'
  {
    assert [c][1..] == [];
    assert Encode([c]) == EncodeChar(c);
  }

  /** An ASCII character that is escaped is written as `%` and its two hex digits. */
  lemma {:induction false} EncodeAsciiEscaped(c: char)
    requires c as int < 0x80 && !Unescaped(c) && c != ' '
    ensures Encode([c]) == ['%', HexDigit(c as int / 16), HexDigit(c as int % 16)]
  {
    assert [c][1..] == [];
    assert Utf8(c) == [c as int];
    assert [c as int][1..] == [];
  }

  /** Serializes one name or value. */
  function Encode(s: string): (r: string)
    ensures forall i :: 0 <= i < |r| ==> UrlSafe(r[i])
    ensures |s| <= |r|
  {
    if s == [] then [] else EncodeChar(s[0]) + Encode(s[1..])
  }

  /** Serializing a concatenation serializes each part, in order. */
  lemma {:induction false} EncodeAppend(a: string, b: string)
    ensures Encode(a + b) == Encode(a) + Encode(b)
  {
    if a == [] {
      assert a + b == b;
    } else {
      assert (a + b)[0] == a[0];
      assert (a + b)[1..] == a[1..] + b;
      EncodeAppend(a[1..], b);
    }
  }

  /**
   * The characters that delimit a query are escaped inside a name or value,
   * so a value cannot end its pair or start another.
   */
  lemma {:induction false} EncodeDelimiters()
    ensures Encode("&") == "%26" && Encode("=") == "%3D"
    ensures Encode("+") == "%2B" && Encode("%") == "%25"
  {
    EncodeAsciiEscaped('&');
    assert HexDigit(2) == '2' && HexDigit(6) == '6';
    EncodeAsciiEscaped('=');
    assert HexDigit(3) == '3' && HexDigit(13) == 'D';
    EncodeAsciiEscaped('+');
    assert HexDigit(11) == 'B';
    EncodeAsciiEscaped('%');
    assert HexDigit(5) == '5';
  }

  /** A space inside a value is written as `+`, its neighbours unchanged. */
  lemma {:induction false} EncodeSpace()
    ensures Encode("a b") == "a+b"
  {
    EncodeCharCases('a');
    EncodeCharCases(' ');
    EncodeCharCases('b');
    assert "a b" == ['a'] + [' '] + ['b'];
    EncodeAppend(['a'], [' ']);
    EncodeAppend(['a'] + [' '], ['b']);
  }

  /** Text made only of unescaped characters is written unchanged. */
  lemma {:induction false} EncodePlain(s: string)
    requires forall i :: 0 <= i < |s| ==> Unescaped(s[i])
    ensures Encode(s) == s
  {
    if s != [] {
      EncodePlain(s[1..]);
    }
  }

  /** `params.toString()`. */
  function Serialize(params: seq<(string, string)>): (r: string)
    ensures r == "" <==> params == []
    ensures forall i :: 0 <= i < |r| ==> r[i] != '?' && r[i] != '#' && r[i] != ' '
  {
    if params == [] then ""
    else
      var first := Encode(params[0].0) + "=" + Encode(params[0].1);
      if |params| == 1 then first else first + "&" + Serialize(params[1..])
  }

  /** The pair `(name, value)` when the value is present, otherwise nothing (`if (v) params.append(name, v)`). */
  function Keep(name: string, value: Option<string>): (r: seq<(string, string)>)
    ensures |r| <= 1
    ensures r != [] <==> Present(value)
    ensures r != [] ==> r[0] == (name, value.value)
  {
    if Present(value) then [(name, value.value)] else []
  }

  /** The URL of a list request: the path, then `?` and the query only when the query is not empty. */
  function StoreUrl(path: string, params: seq<(string, string)>): string
  {
    var query := Serialize(params);
    StoreBase + path + (if query == "" then "" else "?" + query)
  }

  /** A `?` is written exactly when some parameter is: the query never contains one. */
  lemma {:induction false} QuestionMarkIffParams(path: string, params: seq<(string, string)>)
    requires forall i :: 0 <= i < |path| ==> path[i] != '?'
    ensures ('?' in StoreUrl(path, params)) <==> params != []
  {
    var prefix := StoreBase + path;
    assert forall i :: 0 <= i < |prefix| ==> prefix[i] != '?' by {
      forall i | 0 <= i < |prefix| ensures prefix[i] != '?' {
        if i >= |StoreBase| {
          assert prefix[i] == path[i - |StoreBase|];
        }
      }
    }
    if params != [] {
      var url := StoreUrl(path, params);
      assert url[|prefix|] == '?';
    }
  }

  /**
   * Forwarding two optional filters: the URL carries the present ones, in
   * the order given, and no `?` when neither is present.
   */
  method BuildListUrl(path: string, name1: string, value1: Option<string>, name2: string, value2: Option<string>)
    returns (url: string)
    ensures url == StoreUrl(path, Keep(name1, value1) + Keep(name2, value2))
    ensures !Present(value1) && !Present(value2) ==> url == StoreBase + path
  {
    url := StoreBase + path;
    var params: seq<(string, string)> := [];
    if Present(value1) {
      params := params + [(name1, value1.value)];
    }
    assert params == Keep(name1, value1);
    if Present(value2) {
      params := params + [(name2, value2.value)];
    }
    assert params == Keep(name1, value1) + Keep(name2, value2);
    var query := Serialize(params);
    if query != "" {
      url := url + "?" + query;
    }
    assert url == StoreUrl(path, params);
  }
}
