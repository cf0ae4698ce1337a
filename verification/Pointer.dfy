/** JSON Pointer strings (RFC 6901): escaping, decoding, and their inverse laws. */
module Pointer {
  import opened Json

  function Replace(s: string, c: char, with: string): string {
    if s == "" then "" else (if s[0] == c then with else [s[0]]) + Replace(s[1..], c, with)
  }

  /** Two passes, as the source does it: first every `~`, then every `/`. */
  function Escape(s: string): string {
    Replace(Replace(s, '~', "~0"), '/', "~1")
  }

  /** A pointer for a list of reference tokens. */
  function Encode(tokens: seq<string>): string {
    if tokens == [] then "" else "/" + Escape(tokens[0]) + Encode(tokens[1..])
  }

  function Split(s: string): (parts: seq<string>)
    ensures parts != [] && forall i :: 0 <= i < |parts| ==> '/' !in parts[i]
  {
    if s == "" then [""]
    else
      var rest := Split(s[1..]);
      if s[0] == '/' then [""] + rest else [[s[0]] + rest[0]] + rest[1..]
  }

  function Prefix<T>(a: seq<T>, r: Option<seq<T>>): Option<seq<T>> {
    if r.Some? then Some(a + r.value) else None
  }

  lemma PrefixPrefix<T>(a: seq<T>, b: seq<T>, r: Option<seq<T>>)
    ensures Prefix(a, Prefix(b, r)) == Prefix(a + b, r)
  {
    if r.Some? { assert a + (b + r.value) == a + b + r.value; }
  }

  lemma PrefixNothing<T>(r: Option<seq<T>>)
    ensures Prefix([], r) == r
  {
    if r.Some? { assert [] + r.value == r.value; }
  }

  function Unescape(part: string): Option<string> {
    if part == "" then Some("")
    else if part[0] != '~' then Prefix([part[0]], Unescape(part[1..]))
    else if |part| >= 2 && part[1] == '0' then Prefix("~", Unescape(part[2..]))
    else if |part| >= 2 && part[1] == '1' then Prefix("/", Unescape(part[2..]))
    else None
  }

  function UnescapeAll(parts: seq<string>): Option<seq<string>> {
    if parts == [] then Some([])
    else
      var first := Unescape(parts[0]);
      if first.Some? then Prefix([first.value], UnescapeAll(parts[1..])) else None
  }

  function Decode(pointer: string): Option<seq<string>> {
    if pointer == "" then Some([])
    else if pointer[0] != '/' then None
    else UnescapeAll(Split(pointer[1..]))
  }

  lemma UnescapeAt(part: string, i: nat)
    requires i < |part|
    ensures part[i] != '~' ==> Unescape(part[i..]) == Prefix([part[i]], Unescape(part[i + 1..]))
    ensures part[i] == '~' && i + 1 == |part| ==> Unescape(part[i..]).None?
    ensures part[i] == '~' && i + 1 < |part| ==>
              Unescape(part[i..]) ==
              if part[i + 1] == '0' then Prefix("~", Unescape(part[i + 2..]))
              else if part[i + 1] == '1' then Prefix("/", Unescape(part[i + 2..]))
              else None
  {
    assert part[i..][0] == part[i] && part[i..][1..] == part[i + 1..];
    if i + 2 <= |part| { assert part[i..][1] == part[i + 1] && part[i..][2..] == part[i + 2..]; }
  }

  /** The character loop of the source. */
  method DecodePart(part: string) returns (r: Option<string>)
    ensures r == Unescape(part)
  {
    hide Unescape;
    var decoded := "";
    var i := 0;
    assert part[0..] == part;
    PrefixNothing(Unescape(part));
    while i < |part|
      invariant 0 <= i <= |part|
      invariant Unescape(part) == Prefix(decoded, Unescape(part[i..]))
    {
      UnescapeAt(part, i);
      var ch := part[i];
      i := i + 1;
      if ch != '~' {
        PrefixPrefix(decoded, [ch], Unescape(part[i..]));
        decoded := decoded + [ch];
        continue;
      }
      if i == |part| { return None; }
      var next := part[i];
      i := i + 1;
      if next == '0' {
        PrefixPrefix(decoded, "~", Unescape(part[i..]));
        decoded := decoded + "~";
      } else if next == '1' {
        PrefixPrefix(decoded, "/", Unescape(part[i..]));
        decoded := decoded + "/";
      } else {
        return None;
      }
    }
    UnescapeEmpty();
    assert part[|part|..] == "" && decoded + "" == decoded;
    return Some(decoded);
  }

  lemma UnescapeEmpty()
    ensures Unescape("") == Some("")
  {}

  method DecodePtr(pointer: string) returns (r: Option<seq<string>>)
    ensures r == Decode(pointer)
  {
    if pointer == "" { return Some([]); }
    if pointer[0] != '/' { return None; }
    var split := Split(pointer[1..]);
    var parts := [];
    assert split[0..] == split;
    PrefixNothing(UnescapeAll(split));
    for i := 0 to |split|
      invariant UnescapeAll(split) == Prefix(parts, UnescapeAll(split[i..]))
    {
      assert split[i..][0] == split[i] && split[i..][1..] == split[i + 1..];
      var decoded := DecodePart(split[i]);
      if decoded.None? { return None; }
      PrefixPrefix(parts, [decoded.value], UnescapeAll(split[i + 1..]));
      parts := parts + [decoded.value];
    }
    assert split[|split|..] == [] && parts + [] == parts;
    return Some(parts);
  }

  lemma ReplaceHead(s: string, c: char, with: string)
    requires s != ""
    ensures Replace(s, c, with) == (if s[0] == c then with else [s[0]]) + Replace(s[1..], c, with)
  {}

  lemma Associative(a: string, b: string, c: string)
    ensures (a + b) + c == a + (b + c)
  {}

  lemma {:induction false} ReplaceAppend(a: string, b: string, c: char, with: string)
    ensures Replace(a + b, c, with) == Replace(a, c, with) + Replace(b, c, with)
  {
    if a == "" {
      assert a + b == b;
    } else {
      var head := if a[0] == c then with else [a[0]];
      ReplaceAppend(a[1..], b, c, with);
      ReplaceHead(a, c, with);
      ReplaceHead(a + b, c, with);
      assert (a + b)[1..] == a[1..] + b;
      Associative(head, Replace(a[1..], c, with), Replace(b, c, with));
    }
  }

  /** The two passes act on each character separately. */
  lemma {:induction false} EscapeFirst(s: string)
    requires s != ""
    ensures Escape(s) == (if s[0] == '~' then "~0" else if s[0] == '/' then "~1" else [s[0]]) + Escape(s[1..])
  {
    var first := if s[0] == '~' then "~0" else [s[0]];
    assert Replace(s, '~', "~0") == first + Replace(s[1..], '~', "~0");
    ReplaceAppend(first, Replace(s[1..], '~', "~0"), '/', "~1");
    if s[0] == '~' {
      assert "~0"[1..] == "0" && "0"[1..] == "";
      assert Replace("0", '/', "~1") == "0" + Replace("", '/', "~1");
      assert Replace("~0", '/', "~1") == "~" + Replace("0", '/', "~1");
      assert Replace(first, '/', "~1") == "~0";
    } else {
      assert [s[0]][1..] == "";
    }
  }

  lemma {:induction false} UnescapeEscape(s: string)
    ensures '/' !in Escape(s)
    ensures Unescape(Escape(s)) == Some(s)
  {
    if s != "" {
      EscapeFirst(s);
      UnescapeEscape(s[1..]);
      var e := Escape(s);
      assert [s[0]] + s[1..] == s;
      if s[0] == '~' || s[0] == '/' {
        assert e[0] == '~' && e[1] == (if s[0] == '~' then '0' else '1') && e[2..] == Escape(s[1..]);
      } else {
        assert e[0] == s[0] && e[1..] == Escape(s[1..]);
      }
    }
  }

  lemma {:induction false} EscapeUnescape(part: string)
    requires '/' !in part && Unescape(part).Some?
    ensures Escape(Unescape(part).value) == part
  {
    if part != "" {
      var n := if part[0] != '~' then 1 else 2;
      EscapeUnescape(part[n..]);
      var s := Unescape(part).value;
      EscapeFirst(s);
      assert s[1..] == Unescape(part[n..]).value;
      assert part == part[..n] + part[n..];
    }
  }

  lemma {:induction false} SplitAppend(a: string, rest: string)
    requires '/' !in a
    ensures Split(a) == [a]
    ensures Split(a + "/" + rest) == [a] + Split(rest)
  {
    var s := a + "/" + rest;
    if a == "" {
      assert s[1..] == rest;
    } else {
      SplitAppend(a[1..], rest);
      assert s[1..] == a[1..] + "/" + rest;
      assert [a[0]] + a[1..] == a;
      var tail := Split(s[1..]);
      assert tail[0] == a[1..] && tail[1..] == Split(rest);
    }
  }

  lemma UnescapeCons(part: string, parts: seq<string>)
    requires Unescape(part).Some? && UnescapeAll(parts).Some?
    ensures UnescapeAll([part] + parts) == Some([Unescape(part).value] + UnescapeAll(parts).value)
  {
    assert ([part] + parts)[0] == part && ([part] + parts)[1..] == parts;
  }

  ghost function Joined(tokens: seq<string>): string
    requires tokens != []
  {
    if |tokens| == 1 then Escape(tokens[0]) else Escape(tokens[0]) + "/" + Joined(tokens[1..])
  }

  lemma {:induction false} EncodeJoined(tokens: seq<string>)
    requires tokens != []
    ensures Encode(tokens) == "/" + Joined(tokens)
  {
    if |tokens| == 1 {
      assert tokens[1..] == [];
    } else {
      EncodeJoined(tokens[1..]);
    }
  }

  lemma {:induction false} SplitJoined(tokens: seq<string>)
    requires tokens != []
    ensures UnescapeAll(Split(Joined(tokens))) == Some(tokens)
  {
    hide Escape;
    hide Unescape;
    hide UnescapeAll;
    hide Split;
    var e := Escape(tokens[0]);
    UnescapeEscape(tokens[0]);
    UnescapeNothing();
    if |tokens| == 1 {
      SplitAppend(e, "");
      UnescapeCons(e, []);
      assert [e] + [] == [e] && [tokens[0]] + [] == tokens;
    } else {
      SplitJoined(tokens[1..]);
      SplitAppend(e, Joined(tokens[1..]));
      UnescapeCons(e, Split(Joined(tokens[1..])));
      assert [tokens[0]] + tokens[1..] == tokens;
    }
  }

  lemma UnescapeNothing()
    ensures UnescapeAll([]) == Some([])
  {}

  /** Decoding inverts encoding, on every list of tokens. */
  lemma DecodeEncode(tokens: seq<string>)
    ensures Decode(Encode(tokens)) == Some(tokens)
  {
    if tokens != [] {
      EncodeJoined(tokens);
      SplitJoined(tokens);
      assert ("/" + Joined(tokens))[1..] == Joined(tokens);
    }
  }

  lemma {:induction false} EncodeSplit(s: string)
    requires UnescapeAll(Split(s)).Some?
    ensures Encode(UnescapeAll(Split(s)).value) == "/" + s
  {
    hide Escape;
    hide Unescape;
    hide Split;
    var parts := Split(s);
    EscapeUnescape(parts[0]);
    var token := Unescape(parts[0]).value;
    var tokens := UnescapeAll(parts).value;
    assert tokens[0] == token && tokens[1..] == UnescapeAll(parts[1..]).value;
    SplitHead(s);
    var n := |parts[0]|;
    if n < |s| {
      EncodeSplit(s[n + 1..]);
      assert s == parts[0] + "/" + s[n + 1..];
    } else {
      assert s == parts[0];
    }
  }

  lemma {:induction false} SplitHead(s: string)
    ensures var parts := Split(s);
            var n := |parts[0]|;
            && n <= |s| && s[..n] == parts[0]
            && (n == |s| ==> parts == [s])
            && (n < |s| ==> s[n] == '/' && parts[1..] == Split(s[n + 1..]))
  {
    if s != "" && s[0] != '/' {
      SplitHead(s[1..]);
      var rest := Split(s[1..]);
      var m := |rest[0]|;
      assert s[..m + 1] == [s[0]] + s[1..][..m];
      assert s == [s[0]] + s[1..];
      if m < |s[1..]| {
        assert s[1..][m + 1..] == s[m + 2..];
      }
    } else if s != "" {
      assert Split(s)[1..] == Split(s[1..]);
    }
  }

  /** Encoding inverts decoding, on every accepted string. */
  lemma EncodeDecode(pointer: string)
    requires Decode(pointer).Some?
    ensures Encode(Decode(pointer).value) == pointer
  {
    if pointer != "" {
      EncodeSplit(pointer[1..]);
      assert pointer == "/" + pointer[1..];
    }
  }
}
