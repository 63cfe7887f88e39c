/** File URIs: percent-encoding after section 2.1 of RFC 3986, for the file scheme of section 2 of RFC 8089. */
module FileUri {
  import opened Wrappers

  /** One byte of a path or of a URI. */
  type Octet = c: char | c as int < 256 witness 'A'

  type Bytes = seq<Octet>

  const SCHEME: Bytes := "file://"
  const LOCAL_HOST: Bytes := "localhost"
  const NUL: Octet := 0 as char

  /** The unreserved characters of section 2.3 of RFC 3986, and the separator. */
  predicate IsKeptAsIs(c: Octet) {
    'A' <= c <= 'Z' || 'a' <= c <= 'z' || '0' <= c <= '9' || c == '-' || c == '.' || c == '_' || c == '~' || c == '/'
  }

  function HexDigit(n: int): Octet
    requires 0 <= n < 16
  {
    if n < 10 then ('0' as int + n) as char else ('A' as int + n - 10) as char
  }

  /** -1 for anything but a hexadecimal digit. */
  function HexValue(c: Octet): int {
    if '0' <= c <= '9' then c as int - '0' as int
    else if 'A' <= c <= 'F' then c as int - 'A' as int + 10
    else if 'a' <= c <= 'f' then c as int - 'a' as int + 10
    else -1
  }

  // ---- What the two directions mean ----------------------------------------------------------------

  function Escape(c: Octet): Bytes {
    if IsKeptAsIs(c) then [c] else ['%', HexDigit(c as int / 16), HexDigit(c as int % 16)]
  }

  function Encode(path: Bytes): Bytes {
    if path == [] then [] else Escape(path[0]) + Encode(path[1..])
  }

  function FileUriOf(path: Bytes): Bytes {
    SCHEME + Encode(path)
  }

  function Prepend(head: Bytes, tail: Option<Bytes>): Option<Bytes> {
    if tail.None? then None else Some(head + tail.value)
  }

  /** None where an escape is malformed, or stands for NUL. */
  function Decode(rest: Bytes): Option<Bytes> {
    if rest == [] then Some([])
    else if rest[0] != '%' then Prepend([rest[0]], Decode(rest[1..]))
    else if |rest| < 3 || HexValue(rest[1]) < 0 || HexValue(rest[2]) < 0 then None
    else
      var code := HexValue(rest[1]) * 16 + HexValue(rest[2]);
      if code == 0 then None else Prepend([code as char], Decode(rest[3..]))
  }

  /** What follows the scheme and the host, where the URI is of a local file. */
  function Rest(uri: Bytes): Bytes {
    var rest := if SCHEME <= uri then uri[|SCHEME|..] else [];
    if LOCAL_HOST <= rest then rest[|LOCAL_HOST|..] else rest
  }

  function LocalPathOf(uri: Bytes): Bytes {
    var rest := Rest(uri);
    if rest != [] && rest[0] == '/' && Decode(rest).Some? then Decode(rest).value else []
  }

  // ---- As it runs ----------------------------------------------------------------------------------

  method ToFileUri(path: Bytes) returns (uri: Bytes)
    ensures uri == FileUriOf(path)
  {
    uri := SCHEME;
    assert path[0..] == path;
    for i := 0 to |path|
      invariant FileUriOf(path) == uri + Encode(path[i..])
    {
      EncodeStep(uri, path, i);
      if IsKeptAsIs(path[i]) {
        uri := uri + [path[i]];
      } else {
        uri := uri + ['%', HexDigit(path[i] as int / 16), HexDigit(path[i] as int % 16)];
      }
    }
    assert path[|path|..] == [];
  }

  lemma EncodeStep(uri: Bytes, path: Bytes, i: nat)
    requires i < |path|
    ensures uri + Encode(path[i..]) == uri + Escape(path[i]) + Encode(path[i + 1..])
  {
    assert path[i..][1..] == path[i + 1..];
  }

  lemma PrependTwice(path: Bytes, head: Bytes, tail: Option<Bytes>)
    ensures Prepend(path, Prepend(head, tail)) == Prepend(path + head, tail)
    ensures Prepend([], tail) == tail
  {
    if tail.Some? {
      assert path + (head + tail.value) == (path + head) + tail.value;
      assert [] + tail.value == tail.value;
    }
  }

  lemma KeptStep(path: Bytes, rest: Bytes, index: nat)
    requires index < |rest| && rest[index] != '%'
    ensures Prepend(path, Decode(rest[index..])) == Prepend(path + [rest[index]], Decode(rest[index + 1..]))
  {
    assert rest[index..][1..] == rest[index + 1..];
    PrependTwice(path, [rest[index]], Decode(rest[index + 1..]));
  }

  lemma EscapeStep(path: Bytes, rest: Bytes, index: nat)
    requires index < |rest| && rest[index] == '%'
    ensures Prepend(path, Decode(rest[index..]))
         == if index + 2 < |rest| && HexValue(rest[index + 1]) >= 0 && HexValue(rest[index + 2]) >= 0
               && HexValue(rest[index + 1]) * 16 + HexValue(rest[index + 2]) > 0
            then Prepend(path + [(HexValue(rest[index + 1]) * 16 + HexValue(rest[index + 2])) as char],
                         Decode(rest[index + 3..]))
            else None
  {
    var left := rest[index..];
    if |left| >= 3 && HexValue(left[1]) >= 0 && HexValue(left[2]) >= 0 {
      assert left[1] == rest[index + 1] && left[2] == rest[index + 2] && left[3..] == rest[index + 3..];
      var code := HexValue(left[1]) * 16 + HexValue(left[2]);
      if code > 0 {
        PrependTwice(path, [code as char], Decode(left[3..]));
      }
    }
  }

  /** Undoes the escapes of an absolute path; the first that is malformed makes it invalid. */
  method DecodeRest(rest: Bytes) returns (isValid: bool, path: Bytes)
    ensures isValid <==> rest != [] && rest[0] == '/' && Decode(rest).Some?
    ensures isValid ==> path == Decode(rest).value
  {
    path := [];
    isValid := rest != [] && rest[0] == '/';
    var index := 0;
    PrependTwice([], [], Decode(rest));
    assert rest[0..] == rest;
    while isValid && index < |rest|
      invariant isValid ==> index <= |rest| && rest != [] && rest[0] == '/'
      invariant rest != [] && rest[0] == '/' ==>
        Decode(rest) == if isValid then Prepend(path, Decode(rest[index..])) else None
      decreases |rest| - index
    {
      if rest[index] == '%' {
        EscapeStep(path, rest, index);
        var high := if index + 2 < |rest| then HexValue(rest[index + 1]) else -1;
        var low := if index + 2 < |rest| then HexValue(rest[index + 2]) else -1;
        isValid := high >= 0 && low >= 0 && high * 16 + low > 0;
        path := path + [((high * 16 + low) % 256) as char];
        index := index + 3;
      } else {
        KeptStep(path, rest, index);
        path := path + [rest[index]];
        index := index + 1;
      }
    }
    if isValid {
      assert rest[index..] == [];
    }
  }

  method ToLocalPath(uri: Bytes) returns (path: Bytes)
    ensures path == LocalPathOf(uri)
  {
    var rest: Bytes := if SCHEME <= uri then uri[|SCHEME|..] else [];
    if LOCAL_HOST <= rest {
      rest := rest[|LOCAL_HOST|..];
    }
    var isValid, decoded := DecodeRest(rest);
    path := if isValid then decoded else [];
  }

  // ---- Round trips ---------------------------------------------------------------------------------

  lemma HexRoundTrip(n: int)
    requires 0 <= n < 16
    ensures HexValue(HexDigit(n)) == n
  {
  }

  lemma DecodeEscape(c: Octet, rest: Bytes)
    ensures Decode(Escape(c) + rest) == if c == NUL then None else Prepend([c], Decode(rest))
  {
    var high, low := c as int / 16, c as int % 16;
    HexRoundTrip(high);
    HexRoundTrip(low);
    assert IsKeptAsIs(c) ==> (Escape(c) + rest)[1..] == rest;
    assert !IsKeptAsIs(c) ==> (Escape(c) + rest)[3..] == rest;
  }

  /** Decoding undoes encoding, for every path that a C string can hold, and refuses every other. */
  lemma {:induction false} DecodeEncode(path: Bytes)
    ensures Decode(Encode(path)) == if NUL in path then None else Some(path)
  {
    if path != [] {
      DecodeEscape(path[0], Encode(path[1..]));
      DecodeEncode(path[1..]);
      assert path == [path[0]] + path[1..];
    }
  }

  lemma EncodeStart(path: Bytes)
    ensures path != [] && path[0] == '/' ==> Encode(path) != [] && Encode(path)[0] == '/'
    ensures Rest(FileUriOf(path)) == if LOCAL_HOST <= Encode(path) then Encode(path)[|LOCAL_HOST|..] else Encode(path)
  {
    assert SCHEME <= FileUriOf(path) && FileUriOf(path)[|SCHEME|..] == Encode(path);
  }

  lemma {:induction false} DecodeStart(rest: Bytes)
    requires rest != [] && rest[0] == '/' && Decode(rest).Some?
    ensures Decode(rest).value != [] && Decode(rest).value[0] == '/'
  {
  }

  /** A local path is absolute or empty, whatever the URI. */
  lemma LocalPathIsAbsolute(uri: Bytes)
    ensures LocalPathOf(uri) == [] || LocalPathOf(uri)[0] == '/'
  {
    var rest := Rest(uri);
    if rest != [] && rest[0] == '/' && Decode(rest).Some? {
      DecodeStart(rest);
    }
  }

  /** A path comes back from its URI exactly when it is absolute and free of NUL, or empty. */
  lemma PathRoundTrip(path: Bytes)
    ensures LocalPathOf(FileUriOf(path)) == path <==> path == [] || (path[0] == '/' && NUL !in path)
  {
    EncodeStart(path);
    if path != [] {
      if path[0] == '/' {
        assert Encode(path)[0] == '/' && !(LOCAL_HOST <= Encode(path));
        DecodeEncode(path);
      } else {
        LocalPathIsAbsolute(FileUriOf(path));
      }
    }
  }

  // ---- Which URIs are read, and which are written ---------------------------------------------------

  predicate IsHex(c: Octet) {
    HexValue(c) >= 0
  }

  /** Every percent sign starts an escape of two digits that do not stand for NUL. */
  ghost predicate EscapesAreSound(rest: Bytes) {
    forall i | 0 <= i < |rest| && rest[i] == '%' ::
      i + 2 < |rest| && IsHex(rest[i + 1]) && IsHex(rest[i + 2]) && !(rest[i + 1] == '0' && rest[i + 2] == '0')
  }

  lemma SoundDrop(rest: Bytes, n: nat)
    requires n <= |rest| && EscapesAreSound(rest)
    ensures EscapesAreSound(rest[n..])
  {
    forall i | 0 <= i < |rest| - n && rest[n..][i] == '%'
      ensures
        && i + 2 < |rest| - n && IsHex(rest[n..][i + 1]) && IsHex(rest[n..][i + 2])
        && !(rest[n..][i + 1] == '0' && rest[n..][i + 2] == '0')
    {
      assert rest[n + i] == '%';
    }
  }

  lemma SoundPrefix(rest: Bytes, n: nat)
    requires n <= |rest| && EscapesAreSound(rest[n..])
    requires forall i | 0 <= i < n :: rest[i] != '%'
    ensures EscapesAreSound(rest)
  {
    forall i | 0 <= i < |rest| && rest[i] == '%'
      ensures
        i + 2 < |rest| && IsHex(rest[i + 1]) && IsHex(rest[i + 2]) && !(rest[i + 1] == '0' && rest[i + 2] == '0')
    {
      assert rest[n..][i - n] == '%';
    }
  }

  /** Decoding succeeds exactly when every escape is sound, wherever in the URI it stands. */
  lemma {:induction false} DecodesExactlyWhen(rest: Bytes)
    ensures Decode(rest).Some? <==> EscapesAreSound(rest)
    decreases |rest|
  {
    if rest == [] {
    } else if rest[0] != '%' {
      DecodesExactlyWhen(rest[1..]);
      if Decode(rest).Some? {
        SoundPrefix(rest, 1);
      } else if EscapesAreSound(rest) {
        SoundDrop(rest, 1);
      }
    } else if |rest| >= 3 && IsHex(rest[1]) && IsHex(rest[2]) {
      DecodesExactlyWhen(rest[3..]);
      if Decode(rest).Some? {
        assert rest[1] != '%' && rest[2] != '%';
        EscapeThenSound(rest);
      } else if EscapesAreSound(rest) {
        SoundDrop(rest, 3);
      }
    }
  }

  lemma EscapeThenSound(rest: Bytes)
    requires |rest| >= 3 && rest[0] == '%' && IsHex(rest[1]) && IsHex(rest[2]) && !(rest[1] == '0' && rest[2] == '0')
    requires EscapesAreSound(rest[3..])
    ensures EscapesAreSound(rest)
  {
    forall i | 0 < i < |rest| && rest[i] == '%'
      ensures
        i + 2 < |rest| && IsHex(rest[i + 1]) && IsHex(rest[i + 2]) && !(rest[i + 1] == '0' && rest[i + 2] == '0')
    {
      assert rest[3..][i - 3] == '%';
    }
  }

  /** The scheme, then no host or localhost, then an absolute path in which every escape is sound. */
  ghost predicate IsLocal(uri: Bytes, host: Bytes, body: Bytes) {
    && uri == SCHEME + host + body && (host == [] || host == LOCAL_HOST)
    && body != [] && body[0] == '/' && EscapesAreSound(body)
  }

  lemma DropPrefix(a: Bytes, b: Bytes)
    ensures a <= a + b && (a + b)[|a|..] == b
  {
  }

  lemma LocalRest(uri: Bytes, host: Bytes, body: Bytes)
    requires IsLocal(uri, host, body)
    ensures Rest(uri) == body
  {
    assert uri == SCHEME + (host + body);
    DropPrefix(SCHEME, host + body);
    if host == [] {
      assert host + body == body;
      assert LOCAL_HOST[0] != body[0];
    } else {
      DropPrefix(LOCAL_HOST, body);
    }
  }

  lemma RestSplits(uri: Bytes) returns (host: Bytes)
    requires Rest(uri) != []
    ensures uri == SCHEME + host + Rest(uri) && (host == [] || host == LOCAL_HOST)
  {
    var after := uri[|SCHEME|..];
    assert uri == SCHEME + after;
    if LOCAL_HOST <= after {
      host := LOCAL_HOST;
      assert after == host + Rest(uri);
    } else {
      host := [];
    }
    assert SCHEME + (host + Rest(uri)) == SCHEME + host + Rest(uri);
  }

  lemma LocalIsRead(uri: Bytes, host: Bytes, body: Bytes)
    requires IsLocal(uri, host, body)
    ensures LocalPathOf(uri) != []
  {
    LocalRest(uri, host, body);
    DecodesExactlyWhen(body);
    DecodeStart(body);
  }

  /** A URI names a local file exactly when its scheme is file, its host is none or localhost, its path is
      absolute, and every escape in it is sound. */
  lemma NamesALocalFileExactlyWhen(uri: Bytes)
    ensures LocalPathOf(uri) != [] <==> exists host, body :: IsLocal(uri, host, body)
  {
    if LocalPathOf(uri) != [] {
      var rest := Rest(uri);
      DecodesExactlyWhen(rest);
      var host := RestSplits(uri);
      assert IsLocal(uri, host, rest);
    }
    forall host, body | IsLocal(uri, host, body) ensures LocalPathOf(uri) != [] {
      LocalIsRead(uri, host, body);
    }
  }

  /** Kept characters and upper-case escapes, and nothing else. */
  predicate IsNormal(body: Bytes) {
    body == []
    || (IsKeptAsIs(body[0]) && IsNormal(body[1..]))
    || (|body| >= 3 && body[0] == '%' && IsUpperHex(body[1]) && IsUpperHex(body[2]) && IsNormal(body[3..]))
  }

  predicate IsUpperHex(c: Octet) {
    '0' <= c <= '9' || 'A' <= c <= 'F'
  }

  /** The URI of any path is written in the unreserved characters, the separator and upper-case escapes. */
  lemma {:induction false} EncodingIsNormal(path: Bytes)
    ensures IsNormal(Encode(path))
  {
    if path != [] {
      EncodingIsNormal(path[1..]);
      var body := Encode(path);
      var head := Escape(path[0]);
      assert body[|head|..] == Encode(path[1..]);
      assert !IsKeptAsIs('%');
    }
  }

  lemma {:induction false} EncodeInjective(p: Bytes, q: Bytes)
    requires Encode(p) == Encode(q)
    ensures p == q
  {
    if p != [] && q != [] {
      var head, other := Escape(p[0]), Escape(q[0]);
      assert Encode(p)[0] == head[0] == other[0];
      if !IsKeptAsIs(p[0]) {
        assert Encode(p)[1] == head[1] == other[1] && Encode(p)[2] == head[2] == other[2];
        SameEscape(p[0], q[0]);
      }
      assert head == other;
      assert Encode(p)[|head|..] == Encode(p[1..]) && Encode(q)[|head|..] == Encode(q[1..]);
      EncodeInjective(p[1..], q[1..]);
      assert p == [p[0]] + p[1..] && q == [q[0]] + q[1..];
    }
  }

  lemma SameEscape(c: Octet, d: Octet)
    requires !IsKeptAsIs(c) && !IsKeptAsIs(d) && Escape(c) == Escape(d)
    ensures c == d
  {
    HexRoundTrip(c as int / 16);
    HexRoundTrip(c as int % 16);
    HexRoundTrip(d as int / 16);
    HexRoundTrip(d as int % 16);
    assert Escape(c)[1] == Escape(d)[1] && Escape(c)[2] == Escape(d)[2];
  }

  /** Two paths never share a URI, not even two that cannot be read back. */
  lemma UrisTellPathsApart(p: Bytes, q: Bytes)
    requires FileUriOf(p) == FileUriOf(q)
    ensures p == q
  {
    assert FileUriOf(p)[|SCHEME|..] == Encode(p) && FileUriOf(q)[|SCHEME|..] == Encode(q);
    EncodeInjective(p, q);
  }

  // ---- Normalising ---------------------------------------------------------------------------------

  /** An escape never yields a NUL, so one in the path was there as it is. */
  lemma {:induction false} DecodedNul(rest: Bytes)
    requires Decode(rest).Some?
    ensures NUL in Decode(rest).value <==> NUL in rest
    decreases |rest|
  {
    if rest == [] {
    } else if rest[0] != '%' {
      DecodedNul(rest[1..]);
      assert rest == [rest[0]] + rest[1..];
    } else {
      DecodedNul(rest[3..]);
      assert rest == rest[..3] + rest[3..];
      assert rest[..3] == [rest[0], rest[1], rest[2]];
      assert NUL !in rest[..3];
    }
  }

  lemma RestNul(uri: Bytes)
    requires Rest(uri) != []
    ensures NUL in uri <==> NUL in Rest(uri)
  {
    var host := RestSplits(uri);
    assert NUL !in SCHEME && NUL !in LOCAL_HOST;
  }

  /** A URI that names a local file can be written again from its path and read back the same exactly when
      it holds no raw NUL: the refusal of NUL reaches only the escaped one. */
  lemma RewrittenUriReadsTheSame(uri: Bytes)
    requires LocalPathOf(uri) != []
    ensures LocalPathOf(FileUriOf(LocalPathOf(uri))) == LocalPathOf(uri) <==> NUL !in uri
  {
    RestNul(uri);
    DecodedNul(Rest(uri));
    LocalPathIsAbsolute(uri);
    PathRoundTrip(LocalPathOf(uri));
  }

  /** A raw NUL does get through, though an escaped one is refused. */
  lemma RawNulIsRead()
    ensures LocalPathOf(SCHEME + ['/', NUL]) == ['/', NUL]
    ensures LocalPathOf(SCHEME + "/%00") == []
  {
    var raw: Bytes := ['/', NUL];
    assert (SCHEME + raw)[|SCHEME|..] == raw && raw[1..] == [NUL] && [NUL][1..] == [];
    assert Decode([]) == Some([]) && Decode([NUL]) == Prepend([NUL], Decode([]));
    var escaped: Bytes := "/%00";
    assert (SCHEME + escaped)[|SCHEME|..] == escaped && escaped[1..] == "%00";
    assert Decode(escaped[1..]) == None;
  }

  // ---- As it is spelled ----------------------------------------------------------------------------

  /** Letters, digits, and - . _ ~, by their codes. */
  predicate IsUnreserved(code: int) {
    65 <= code <= 90 || 97 <= code <= 122 || 48 <= code <= 57 || code in {45, 46, 95, 126}
  }

  /** The upper-case digit of a number. */
  function UpperDigit(n: nat): Octet
    requires n < 16
  {
    (if n < 10 then 48 + n else 55 + n) as char
  }

  /** A character of a path stands in the URI as it is exactly when it is unreserved or a separator; any other is
      a percent sign and its two digits. */
  lemma SpelledExactly(path: Bytes)
    requires path != []
    ensures var code := path[0] as int;
            Encode(path) == (if IsUnreserved(code) || code == 47 then [path[0]]
                             else ['%', UpperDigit(code / 16), UpperDigit(code % 16)]) + Encode(path[1..])
  {
    var code := path[0] as int;
    assert IsKeptAsIs(path[0]) <==> IsUnreserved(code) || code == 47;
  }

  /** Digits are read in either case, and nothing else is a digit. */
  lemma DigitsAreRead(c: Octet)
    ensures var code := c as int;
            HexValue(c) == if 48 <= code <= 57 then code - 48
                           else if 65 <= code <= 70 then code - 55
                           else if 97 <= code <= 102 then code - 87
                           else -1
  {
  }

  /** A sound escape is read as the character of its number, and the rest after it; what is no percent sign is
      read as it is. */
  lemma EscapeIsRead(first: Octet, second: Octet, rest: Bytes)
    requires HexValue(first) >= 0 && HexValue(second) >= 0
    ensures var code := HexValue(first) * 16 + HexValue(second);
            Decode(['%', first, second] + rest)
              == if code == 0 then None else Prepend([code as char], Decode(rest))
    ensures first != '%' ==> Decode([first] + rest) == Prepend([first], Decode(rest))
  {
    var whole := ['%', first, second] + rest;
    assert whole[3..] == rest && whole[1] == first && whole[2] == second;
    assert ([first] + rest)[1..] == rest;
  }

  /** A URI of this machine: after the scheme, with its name or without. */
  lemma HostMayBeNamed(path: Bytes)
    requires path != [] && path[0] == '/' && NUL !in path
    ensures LocalPathOf(['f', 'i', 'l', 'e', ':', '/', '/'] + Encode(path)) == path
    ensures var host := ['l', 'o', 'c', 'a', 'l', 'h', 'o', 's', 't'];
            LocalPathOf(['f', 'i', 'l', 'e', ':', '/', '/'] + host + Encode(path)) == path
  {
    PathRoundTrip(path);
    EncodeStart(path);
    DecodeEncode(path);
    HostIsPassedOver(Encode(path));
  }

  lemma HostIsPassedOver(body: Bytes)
    ensures ['f', 'i', 'l', 'e', ':', '/', '/'] == SCHEME
    ensures ['l', 'o', 'c', 'a', 'l', 'h', 'o', 's', 't'] == LOCAL_HOST
    ensures Rest(SCHEME + LOCAL_HOST + body) == body
  {
    var rest := LOCAL_HOST + body;
    DropPrefix(SCHEME, rest);
    DropPrefix(LOCAL_HOST, body);
    assert SCHEME + LOCAL_HOST + body == SCHEME + rest;
  }
}
