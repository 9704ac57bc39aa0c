/** The relay's JSON string writer and reader (the escapes of section 7 of RFC 8259 that it
    knows), and the claim body they exchange. Bytes are characters. */
module RelayJson {
  import opened Naming

  // ---- Writer --------------------------------------------------------------------------

  function HexDigit(d: nat): char
    requires d < 16
  {
    if d < 10 then '0' + d as char else 'a' + (d - 10) as char
  }

  function EscapeChar(c: char): string
  {
    if c == '"' then "\\\""
    else if c == '\\' then "\\\\"
    else if c == '\n' then "\\n"
    else if c == '\r' then "\\r"
    else if c == '\t' then "\\t"
    else if c < 32 as char then "\\u00" + [HexDigit(c as nat / 16), HexDigit(c as nat % 16)]
    else [c]
  }

  function Escape(s: string): string
  {
    if s == "" then "" else EscapeChar(s[0]) + Escape(s[1..])
  }

  method JsonEscape(s: string) returns (out: string)
    ensures out == Escape(s)
  {
    out := "";
    assert s[0..] == s;
    for i := 0 to |s|
      invariant out + Escape(s[i..]) == Escape(s)
    {
      assert s[i..][0] == s[i] && s[i..][1..] == s[i + 1..];
      assert out + (EscapeChar(s[i]) + Escape(s[i + 1..])) == (out + EscapeChar(s[i])) + Escape(s[i + 1..]);
      out := out + EscapeChar(s[i]);
    }
  }

  // ---- Reader --------------------------------------------------------------------------

  /** First occurrence at or after `from`. */
  function Find(body: string, needle: string, from: nat): Option<nat>
    decreases |body| - from
  {
    if from + |needle| > |body| then None
    else if body[from..from + |needle|] == needle then Some(from)
    else if from >= |body| then None
    else Find(body, needle, from + 1)
  }

  function HexValue(c: char): Option<nat>
  {
    if '0' <= c <= '9' then Some(c as nat - '0' as nat)
    else if 'a' <= c <= 'f' then Some(c as nat - 'a' as nat + 10)
    else if 'A' <= c <= 'F' then Some(c as nat - 'A' as nat + 10)
    else None
  }

  /** Four hex digits at `pos`. */
  function Hex4(body: string, pos: nat): Option<nat>
  {
    if pos + 4 > |body| then None
    else
      var a, b, c, d := HexValue(body[pos]), HexValue(body[pos + 1]), HexValue(body[pos + 2]),
                        HexValue(body[pos + 3]);
      if a.Some? && b.Some? && c.Some? && d.Some?
      then Some(a.value * 4096 + b.value * 256 + c.value * 16 + d.value) else None
  }

  function Unescape(esc: char): char
  {
    if esc == 'n' then '\n' else if esc == 't' then '\t' else if esc == 'r' then '\r'
    else if esc == 'b' then 8 as char else if esc == 'f' then 12 as char
    else esc
  }

  /** The character that starts at `pos`, and where the next one starts. */
  function ReadOne(body: string, pos: nat): (char, nat)
    requires pos < |body|
  {
    if body[pos] != '\\' || pos + 1 >= |body| then (body[pos], pos + 1)
    else if body[pos + 1] == 'u' then
      var code := Hex4(body, pos + 2);
      if code.None? then ('?', pos + 2)
      else (if code.value < 128 then code.value as char else '?', pos + 6)
    else (Unescape(body[pos + 1]), pos + 2)
  }

  /** From behind the opening quote to the first quote that is not escaped. */
  function ReadString(body: string, pos: nat): Option<string>
    decreases if pos < |body| then |body| - pos else 0
  {
    if pos >= |body| then None
    else if body[pos] == '"' then Some("")
    else
      var (c, next) := ReadOne(body, pos);
      var rest := ReadString(body, next);
      if rest.None? then None else Some([c] + rest.value)
  }

  predicate Blank(c: char)
  {
    c == ' ' || c == '\t' || c == '\n' || c == '\r'
  }

  function SkipBlanks(body: string, pos: nat): nat
    decreases |body| - pos
  {
    if pos < |body| && Blank(body[pos]) then SkipBlanks(body, pos + 1) else pos
  }

  function Field(body: string, key: string): Option<string>
  {
    var needle := "\"" + key + "\"";
    var at := Find(body, needle, 0);
    if at.None? then None
    else
      var colon := Find(body, ":", at.value + |needle|);
      if colon.None? then None
      else
        var p := SkipBlanks(body, colon.value + 1);
        if p >= |body| || body[p] != '"' then None else ReadString(body, p + 1)
  }

  method StdFind(body: string, needle: string, from: nat) returns (at: Option<nat>)
    requires needle != ""
    ensures at == Find(body, needle, from)
  {
    var p := from;
    while p + |needle| <= |body|
      invariant Find(body, needle, p) == Find(body, needle, from)
      decreases |body| - p
    {
      if body[p..p + |needle|] == needle {
        return Some(p);
      }
      p := p + 1;
    }
    return None;
  }

  /** The reader's loops; `out` is meaningful when `found`. */
  method JsonStringField(body: string, key: string) returns (out: Option<string>)
    ensures out == Field(body, key)
  {
    var needle := "\"" + key + "\"";
    var at := StdFind(body, needle, 0);
    if at.None? {
      return None;
    }
    var colon := StdFind(body, ":", at.value + |needle|);
    if colon.None? {
      return None;
    }
    var pos := colon.value + 1;
    while pos < |body| && Blank(body[pos])
      invariant SkipBlanks(body, pos) == SkipBlanks(body, colon.value + 1)
      decreases |body| - pos
    {
      pos := pos + 1;
    }
    if pos >= |body| || body[pos] != '"' {
      return None;
    }
    pos := pos + 1;
    out := ReadValue(body, pos);
  }

  function Prepend(front: string, rest: Option<string>): Option<string>
  {
    if rest.None? then None else Some(front + rest.value)
  }

  method ReadValue(body: string, start: nat) returns (out: Option<string>)
    ensures out == ReadString(body, start)
  {
    var result: string, pos := "", start;
    ghost var goal := ReadString(body, start);
    assert goal.Some? ==> "" + goal.value == goal.value;
    while pos < |body|
      invariant Prepend(result, ReadString(body, pos)) == goal
      decreases if pos < |body| then |body| - pos else 0
    {
      if body[pos] == '"' {
        assert result + "" == result;
        return Some(result);
      }
      var (c, next) := ReadOne(body, pos);
      ghost var rest := ReadString(body, next);
      assert rest.Some? ==> result + ([c] + rest.value) == (result + [c]) + rest.value;
      result := result + [c];
      pos := next;
    }
    return None;
  }

  // ---- Round trip ------------------------------------------------------------------------

  predicate At(body: string, p: nat, text: string)
  {
    p + |text| <= |body| && body[p..p + |text|] == text
  }

  lemma AtSplit(body: string, p: nat, a: string, b: string)
    ensures At(body, p, a + b) <==> At(body, p, a) && At(body, p + |a|, b)
  {
    if At(body, p, a + b) {
      assert body[p..p + |a|] == body[p..p + |a + b|][..|a|] == a;
      assert body[p + |a|..p + |a| + |b|] == body[p..p + |a + b|][|a|..] == b;
    }
    if At(body, p, a) && At(body, p + |a|, b) {
      assert body[p..p + |a + b|] == body[p..p + |a|] + body[p + |a|..p + |a| + |b|];
    }
  }

  lemma AtChar(body: string, p: nat, text: string, i: nat)
    requires At(body, p, text) && i < |text|
    ensures body[p + i] == text[i]
  {
    assert body[p..p + |text|][i] == text[i];
  }

  lemma HexBack(d: nat)
    requires d < 16
    ensures HexValue(HexDigit(d)) == Some(d)
  {
  }

  lemma OneBack(body: string, p: nat, c: char)
    requires At(body, p, EscapeChar(c)) && (c == '\\' ==> p + 1 < |body|)
    ensures p < |body| && body[p] != '"'
    ensures ReadOne(body, p) == (c, p + |EscapeChar(c)|)
  {
    var e := EscapeChar(c);
    AtChar(body, p, e, 0);
    if |e| > 1 { AtChar(body, p, e, 1); }
    if |e| == 6 {
      AtChar(body, p, e, 2);
      AtChar(body, p, e, 3);
      AtChar(body, p, e, 4);
      AtChar(body, p, e, 5);
      HexBack(c as nat / 16);
      HexBack(c as nat % 16);
    }
  }

  /** Whatever was written is read back, to the last byte and no further. */
  lemma {:induction false} RoundTrip(body: string, p: nat, s: string)
    requires At(body, p, Escape(s) + "\"")
    ensures ReadString(body, p) == Some(s)
    decreases |s|
  {
    if s == "" {
      AtChar(body, p, "\"", 0);
      assert Escape(s) + "\"" == "\"";
    } else {
      var e, rest := EscapeChar(s[0]), Escape(s[1..]) + "\"";
      assert Escape(s) + "\"" == e + rest;
      AtSplit(body, p, e, rest);
      OneBack(body, p, s[0]);
      RoundTrip(body, p + |e|, s[1..]);
      assert s == [s[0]] + s[1..];
    }
  }

  // ---- The claim body ----------------------------------------------------------------------

  /** Byte for byte what `runSoloClaim` sends. */
  function ClaimBody(env: string, mode: string): string
  {
    if env == "" && mode == "" then "{}"
    else if mode == "" then "{\"env\":\"" + Escape(env) + "\"}"
    else if env == "" then "{\"mode\":\"" + Escape(mode) + "\"}"
    else "{\"env\":\"" + Escape(env) + "\",\"mode\":\"" + Escape(mode) + "\"}"
  }

  /** A quote in escaped text always follows a backslash. */
  lemma {:induction false} QuotesEscaped(s: string, i: nat)
    requires i < |Escape(s)| && Escape(s)[i] == '"'
    ensures i > 0 && Escape(s)[i - 1] == '\\'
    decreases |s|
  {
    var e := EscapeChar(s[0]);
    assert Escape(s) == e + Escape(s[1..]);
    if i < |e| {
      assert e[i] == '"';
    } else {
      QuotesEscaped(s[1..], i - |e|);
    }
  }

  /** A match is a window equal to the needle. */
  lemma {:induction false} FindGives(body: string, needle: string, from: nat)
    requires needle != ""
    ensures var r := Find(body, needle, from);
            && (r.Some? ==> r.value >= from && At(body, r.value, needle)
                            && forall p | from <= p < r.value :: !At(body, p, needle))
            && (r.None? ==> forall p | from <= p :: !At(body, p, needle))
    decreases |body| - from
  {
    if from + |needle| <= |body| && body[from..from + |needle|] != needle {
      FindGives(body, needle, from + 1);
    }
  }

  lemma FindIs(body: string, needle: string, from: nat, p: nat)
    requires needle != "" && from <= p && At(body, p, needle)
    requires forall q | from <= q < p :: !At(body, q, needle)
    ensures Find(body, needle, from) == Some(p)
  {
    FindGives(body, needle, from);
  }

  /** Past the value that starts with its quote at `p`. */
  lemma FieldReads(body: string, key: string, k: nat, colon: nat, value: string)
    requires Find(body, "\"" + key + "\"", 0) == Some(k)
    requires Find(body, ":", k + |key| + 2) == Some(colon)
    requires At(body, colon + 1, "\"" + Escape(value) + "\"")
    ensures Field(body, key) == Some(value)
  {
    hide Escape, Find, ReadString;
    var text := Escape(value) + "\"";
    assert "\"" + Escape(value) + "\"" == "\"" + text;
    AtSplit(body, colon + 1, "\"", text);
    AtChar(body, colon + 1, "\"", 0);
    RoundTrip(body, colon + 2, value);
    assert |"\"" + key + "\""| == |key| + 2;
  }

  predicate PlainKey(key: string)
  {
    key != "" && forall i | 0 <= i < |key| :: 'a' <= key[i] <= 'z'
  }

  function Quoted(s: string): string
  {
    "\"" + s + "\""
  }

  lemma Piece(body: string, a: string, b: string, c: string)
    requires body == a + b + c
    ensures At(body, |a|, b)
  {
  }

  /** An object opens with this key and this text. */
  predicate Opens(body: string, key: string, text: string)
  {
    && At(body, 0, "{") && At(body, 1, Quoted(key)) && At(body, |key| + 3, ":")
    && At(body, |key| + 4, Quoted(Escape(text)))
  }

  /** Where the text of the first field ends: its closing quote. */
  function Closing(key: string, text: string): nat
  {
    |key| + 5 + |Escape(text)|
  }

  /** The first key is found at once. */
  lemma FirstKey(body: string, key: string, text: string)
    requires PlainKey(key) && Opens(body, key, text)
    ensures Field(body, key) == Some(text)
  {
    hide Escape, Find, ReadString, SkipBlanks, Field;
    forall q | 0 <= q < 1 ensures !At(body, q, Quoted(key)) {
      AtChar(body, 0, "{", 0);
      if At(body, q, Quoted(key)) { AtChar(body, q, Quoted(key), 0); }
    }
    FindIs(body, Quoted(key), 0, 1);
    FindIs(body, ":", |key| + 3, |key| + 3);
    FieldReads(body, key, 1, |key| + 3, text);
  }

  /** Inside an escaped text a quote follows a backslash. */
  lemma QuoteInside(body: string, start: nat, text: string, i: nat)
    requires At(body, start, Escape(text)) && i < |Escape(text)| && body[start + i] == '"'
    ensures i > 0 && body[start + i - 1] == '\\'
  {
    AtChar(body, start, Escape(text), i);
    QuotesEscaped(text, i);
    AtChar(body, start, Escape(text), i - 1);
  }

  /** The quotes before the first text are those around the key, and the opening one. */
  lemma QuotesBefore(body: string, key: string, text: string, i: nat)
    requires PlainKey(key) && Opens(body, key, text) && i < |key| + 5 && body[i] == '"'
    ensures i == 1 || i == |key| + 2 || i == |key| + 4
  {
    hide Escape;
    if i == 0 {
      AtChar(body, 0, "{", 0);
    } else if i == |key| + 3 {
      AtChar(body, |key| + 3, ":", 0);
    } else if 1 < i < |key| + 2 {
      AtChar(body, 1, Quoted(key), i - 1);
    }
  }

  /** The last two characters of a match. */
  lemma MatchEnd(body: string, other: string, p: nat)
    requires PlainKey(other) && At(body, p, Quoted(other))
    ensures p + |other| + 1 < |body| && body[p] == '"' && body[p + |other| + 1] == '"'
    ensures 'a' <= body[p + |other|] <= 'z'
  {
    AtChar(body, p, Quoted(other), 0);
    AtChar(body, p, Quoted(other), |other|);
    AtChar(body, p, Quoted(other), |other| + 1);
  }

  /** No match ends before the text begins. */
  lemma NoMatchBefore(body: string, key: string, text: string, other: string, p: nat)
    requires PlainKey(key) && PlainKey(other) && key != other && Opens(body, key, text)
    requires At(body, p, Quoted(other))
    ensures p + |other| + 1 >= |key| + 5
  {
    hide Escape;
    MatchEnd(body, other, p);
    var end := p + |other| + 1;
    assert Quoted(other)[1..|other| + 1] == other && Quoted(key)[1..|key| + 1] == key;
    if end < |key| + 5 {
      QuotesBefore(body, key, text, end);
      QuotesBefore(body, key, text, p);
      AtChar(body, |key| + 3, ":", 0);
    }
  }

  /** Another key is matched nowhere before the closing quote of the first text, whatever
      the text: a match has to end in a quote that is not escaped. */
  lemma NoEarlyMatch(body: string, key: string, text: string, other: string, p: nat)
    requires PlainKey(key) && PlainKey(other) && key != other && Opens(body, key, text)
    requires At(body, p, Quoted(other))
    ensures p + |other| + 1 >= Closing(key, text)
  {
    MatchEnd(body, other, p);
    NoMatchBefore(body, key, text, other, p);
    AtSplit(body, |key| + 4, "\"" + Escape(text), "\"");
    AtSplit(body, |key| + 4, "\"", Escape(text));
    hide Escape, At, PlainKey;
    var end := p + |other| + 1;
    if end < Closing(key, text) {
      QuoteInside(body, |key| + 5, text, end - (|key| + 5));
    }
  }

  /** A key that was not written is reported absent, even if the text ends in its name. */
  lemma AbsentKey(body: string, key: string, text: string, other: string)
    requires PlainKey(key) && PlainKey(other) && key != other && Opens(body, key, text)
    requires |body| == Closing(key, text) + 2 && body[|body| - 1] == '}'
    ensures Field(body, other) == None
  {
    hide Escape, ReadString, SkipBlanks, Find;
    FindGives(body, Quoted(other), 0);
    var at := Find(body, Quoted(other), 0);
    if at.Some? {
      NoEarlyMatch(body, key, text, other, at.value);
      var from := at.value + |other| + 2;
      FindGives(body, ":", from);
      var colon := Find(body, ":", from);
      if colon.Some? { AtChar(body, colon.value, ":", 0); }
    }
  }

  /** The second key is read, even if the first match is the end of the first text: the
      next colon is the right one all the same. */
  lemma SecondKey(body: string, key: string, text: string, other: string, value: string)
    requires PlainKey(key) && PlainKey(other) && key != other && Opens(body, key, text)
    requires var k := Closing(key, text) + 2;
             && At(body, k - 1, ",") && At(body, k, Quoted(other)) && At(body, k + |other| + 2, ":")
             && At(body, k + |other| + 3, Quoted(Escape(value)))
    ensures Field(body, other) == Some(value)
  {
    hide Escape, ReadString, SkipBlanks, Find, Field;
    var k := Closing(key, text) + 2;
    FindGives(body, Quoted(other), 0);
    var at := Find(body, Quoted(other), 0).value;
    NoEarlyMatch(body, key, text, other, at);
    var colon := k + |other| + 2;
    AtChar(body, k - 1, ",", 0);
    forall q | at + |other| + 2 <= q < colon ensures !At(body, q, ":") {
      if At(body, q, ":") {
        AtChar(body, q, ":", 0);
        if q >= k {
          AtChar(body, k, Quoted(other), q - k);
        }
      }
    }
    FindIs(body, ":", at + |other| + 2, colon);
    FieldReads(body, other, at, colon, value);
  }

  lemma OneField(key: string, text: string, body: string)
    requires body == "{" + Quoted(key) + ":" + Quoted(Escape(text)) + "}"
    ensures Opens(body, key, text) && |body| == Closing(key, text) + 2 && body[|body| - 1] == '}'
  {
    hide Escape;
    var a, b, c, d := "{", Quoted(key), ":", Quoted(Escape(text));
    Piece(body, "", a, b + c + d + "}");
    Piece(body, a, b, c + d + "}");
    Piece(body, a + b, c, d + "}");
    Piece(body, a + b + c, d, "}");
  }

  lemma TwoFields(key: string, text: string, other: string, value: string, body: string)
    requires body == "{" + Quoted(key) + ":" + Quoted(Escape(text)) + ","
                     + Quoted(other) + ":" + Quoted(Escape(value)) + "}"
    ensures Opens(body, key, text)
    ensures var k := Closing(key, text) + 2;
            && At(body, k - 1, ",") && At(body, k, Quoted(other)) && At(body, k + |other| + 2, ":")
            && At(body, k + |other| + 3, Quoted(Escape(value)))
  {
    hide Escape, At;
    Eight(body, "{", Quoted(key), ":", Quoted(Escape(text)), ",", Quoted(other), ":",
          Quoted(Escape(value)), "}");
  }

  lemma Eight(body: string, a: string, b: string, c: string, d: string, e: string, f: string,
              g: string, h: string, z: string)
    requires body == a + b + c + d + e + f + g + h + z
    ensures At(body, 0, a) && At(body, |a|, b) && At(body, |a + b|, c) && At(body, |a + b + c|, d)
    ensures At(body, |a + b + c + d|, e) && At(body, |a + b + c + d + e|, f)
    ensures At(body, |a + b + c + d + e + f|, g) && At(body, |a + b + c + d + e + f + g|, h)
  {
    assert At(body, 0, body) by { assert body[0..|body|] == body; }
    hide At;
    AtSplit(body, 0, a + b + c + d + e + f + g + h, z);
    AtSplit(body, 0, a + b + c + d + e + f + g, h);
    AtSplit(body, 0, a + b + c + d + e + f, g);
    AtSplit(body, 0, a + b + c + d + e, f);
    AtSplit(body, 0, a + b + c + d, e);
    AtSplit(body, 0, a + b + c, d);
    AtSplit(body, 0, a + b, c);
    AtSplit(body, 0, a, b);
  }

  lemma EmptyBody(key: string)
    requires PlainKey(key)
    ensures Field("{}", key) == None
  {
  }

  lemma ClaimBodyShape(env: string, mode: string)
    ensures ClaimBody(env, mode)
         == if env == "" && mode == "" then "{}"
            else if mode == "" then "{" + Quoted("env") + ":" + Quoted(Escape(env)) + "}"
            else if env == "" then "{" + Quoted("mode") + ":" + Quoted(Escape(mode)) + "}"
            else "{" + Quoted("env") + ":" + Quoted(Escape(env)) + ","
                 + Quoted("mode") + ":" + Quoted(Escape(mode)) + "}"
  {
    hide Escape;
    assert "{" + Quoted("env") + ":" == "{\"env\":";
    assert "{" + Quoted("mode") + ":" == "{\"mode\":";
    var e, m := Escape(env), Escape(mode);
    assert "{\"env\":\"" + e + "\"}" == "{\"env\":" + Quoted(e) + "}";
    assert "{\"mode\":\"" + m + "\"}" == "{\"mode\":" + Quoted(m) + "}";
    assert "," + Quoted("mode") + ":" == ",\"mode\":";
    assert "{\"env\":\"" + e + "\",\"mode\":\"" + m + "\"}"
        == "{\"env\":" + Quoted(e) + "," + Quoted("mode") + ":" + Quoted(m) + "}";
  }

  /** Both fields of the claim body read back for every text, including an env that equals
      or ends in a key name; what was not written is absent. */
  lemma ClaimBodyReadsBack(env: string, mode: string)
    ensures Field(ClaimBody(env, mode), "mode") == if mode == "" then None else Some(mode)
    ensures Field(ClaimBody(env, mode), "env") == if env == "" then None else Some(env)
  {
    hide Escape, Field, ClaimBody, Opens, At;
    ClaimBodyShape(env, mode);
    var body := ClaimBody(env, mode);
    assert PlainKey("env") && PlainKey("mode") && "env" != "mode";
    if env == "" && mode == "" {
      EmptyBody("env");
      EmptyBody("mode");
    } else if mode == "" {
      OneField("env", env, body);
      FirstKey(body, "env", env);
      AbsentKey(body, "env", env, "mode");
    } else if env == "" {
      OneField("mode", mode, body);
      FirstKey(body, "mode", mode);
      AbsentKey(body, "mode", mode, "env");
    } else {
      TwoFields("env", env, "mode", mode, body);
      FirstKey(body, "env", env);
      SecondKey(body, "env", env, "mode", mode);
    }
  }
}
