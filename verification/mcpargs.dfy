// Arguments of client-declared tools: one JSON object on the client's side, a map
// of separately encoded values on Cursor's side.
module McpArguments {
  import opened Basics

  /** The codecs, as parameters.  encodeValue takes the number of the marshal call, which may matter to the
      bytes.  canon gives two texts the same form when they are the same JSON value, numbers being compared
      as doubles; valid tells whether a text is JSON at all. */
  datatype Json = Json(
    parseObject: string -> Option<map<string, string>>,
    renderObject: map<string, string> -> string,
    encodeValue: (string, nat) -> Option<Bytes>,
    decodeValue: Bytes -> Option<string>,
    isJson: Bytes -> bool,
    asText: Bytes -> string,
    quote: Bytes -> string,
    valid: string -> bool,
    canon: string -> string
  )

  function Canonical(j: Json, obj: map<string, string>): map<string, string> {
    map k | k in obj :: j.canon(obj[k])
  }

  /** The text was an object with the names of this one, and the same value under each. */
  predicate SameObject(j: Json, parsed: Option<map<string, string>>, obj: map<string, string>) {
    parsed.Some? && Canonical(j, parsed.value) == Canonical(j, obj)
  }

  /** The decoder takes these bytes: a value nested beyond protobuf's limit is encoded but not read back. */
  predicate ReadBack(j: Json, raw: Option<Bytes>) {
    raw.Some? && j.decodeValue(raw.value).Some?
  }

  /** What reads as a value again is the same value, and what is put in an object comes out the same. */
  ghost predicate Lawful(j: Json) {
    && (forall v, n: nat :: ReadBack(j, j.encodeValue(v, n)) ==>
          j.canon(j.decodeValue(j.encodeValue(v, n).value).value) == j.canon(v))
    && (forall raw :: j.decodeValue(raw).Some? ==> j.valid(j.decodeValue(raw).value))
    && (forall raw :: j.isJson(raw) ==> j.valid(j.asText(raw)))
    && (forall raw :: j.valid(j.quote(raw)))
    && (forall obj: map<string, string> :: (forall k :: k in obj ==> j.valid(obj[k])) ==>
          !Blank(j.renderObject(obj)) && SameObject(j, j.parseObject(j.renderObject(obj)), obj))
    && j.parseObject("{}") == Some(map[])
  }

  /** Encoding a value always gives the same bytes. */
  ghost predicate EncodesOneWay(j: Json) {
    forall v, n: nat :: j.encodeValue(v, n) == j.encodeValue(v, 0)
  }

  predicate IsSpace(c: char) {
    c as int in {9, 10, 11, 12, 13, 32, 0x85, 0xA0, 0x1680, 0x2028, 0x2029, 0x202F, 0x205F, 0x3000}
      || 0x2000 <= c as int <= 0x200A
  }

  predicate Blank(s: string) {
    forall c :: c in s ==> IsSpace(c)
  }

  // ---- to the client ----

  /** A value that is no encoded value passes as JSON if it is JSON, and as a string otherwise. */
  function Rendered(j: Json, raw: Bytes): string {
    if j.decodeValue(raw).Some? then j.decodeValue(raw).value
    else if j.isJson(raw) then j.asText(raw)
    else j.quote(raw)
  }

  function RenderedArgs(j: Json, args: map<string, Bytes>): map<string, string> {
    map k | k in args :: Rendered(j, args[k])
  }

  function ArgsToJson(j: Json, args: map<string, Bytes>): string {
    if args == map[] then "{}" else j.renderObject(RenderedArgs(j, args))
  }

  method McpArgsToJson(j: Json, args: map<string, Bytes>) returns (text: string)
    ensures text == ArgsToJson(j, args)
  {
    if |args| == 0 {
      return "{}";
    }
    var obj: map<string, string> := map[];
    var keys := args.Keys;
    while keys != {}
      invariant keys <= args.Keys && obj.Keys == args.Keys - keys
      invariant forall k :: k in obj ==> obj[k] == Rendered(j, args[k])
      decreases |keys|
    {
      var key :| key in keys;
      keys := keys - {key};
      var raw := args[key];
      if j.decodeValue(raw).Some? {
        obj := obj[key := j.decodeValue(raw).value];
      } else if j.isJson(raw) {
        obj := obj[key := j.asText(raw)];
      } else {
        obj := obj[key := j.quote(raw)];
      }
    }
    assert obj == RenderedArgs(j, args);
    text := j.renderObject(obj);
  }

  // ---- back to Cursor ----

  /** The marshal call that encodes the argument of each name. */
  type Numbering = string -> nat

  function EncodedArgs(j: Json, obj: map<string, string>, calls: Numbering): Option<map<string, Bytes>> {
    if forall k :: k in obj ==> j.encodeValue(obj[k], calls(k)).Some?
    then Some(map k | k in obj :: j.encodeValue(obj[k], calls(k)).value)
    else None
  }

  function SplitArgs(j: Json, argsJSON: string, calls: Numbering): Option<map<string, Bytes>> {
    if Blank(argsJSON) then Some(map[])
    else match j.parseObject(argsJSON)
      case None => None
      case Some(obj) => EncodedArgs(j, obj, calls)
  }

  method SplitArguments(j: Json, argsJSON: string, calls: Numbering) returns (args: Option<map<string, Bytes>>)
    ensures args == SplitArgs(j, argsJSON, calls)
  {
    if Blank(argsJSON) {
      return Some(map[]);
    }
    var parsed := j.parseObject(argsJSON);
    if parsed.None? {
      return None;
    }
    var encoded: map<string, Bytes> := map[];
    var keys := parsed.value.Keys;
    while keys != {}
      invariant keys <= parsed.value.Keys && encoded.Keys == parsed.value.Keys - keys
      invariant forall k :: k in encoded ==> j.encodeValue(parsed.value[k], calls(k)) == Some(encoded[k])
      decreases |keys|
    {
      var key :| key in keys;
      keys := keys - {key};
      var value := j.encodeValue(parsed.value[key], calls(key));
      if value.None? {
        return None;
      }
      encoded := encoded[key := value.value];
    }
    assert encoded == EncodedArgs(j, parsed.value, calls).value;
    args := Some(encoded);
  }

  /** Blank are the space, the five controls from tab to carriage return, and the white space beyond ASCII. */
  lemma BlankExactly(c: char)
    ensures Blank([c]) <==>
      || c == ' ' || 9 <= c as int <= 13 || c as int == 0x85 || c as int == 0xA0 || c as int == 0x1680
      || 0x2000 <= c as int <= 0x200A || c as int == 0x2028 || c as int == 0x2029 || c as int == 0x202F
      || c as int == 0x205F || c as int == 0x3000
  {
    assert c in [c];
  }

  /** Blank arguments are none; any others must be an object whose values can be encoded, name by name. */
  lemma ArgumentsSplitByName(j: Json, argsJSON: string, calls: Numbering)
    ensures Blank(argsJSON) ==> SplitArgs(j, argsJSON, calls) == Some(map[])
    ensures !Blank(argsJSON) ==>
      var obj, args := j.parseObject(argsJSON), SplitArgs(j, argsJSON, calls);
      && (args.Some? <==> obj.Some? && forall k :: k in obj.value ==> j.encodeValue(obj.value[k], calls(k)).Some?)
      && (args.Some? ==>
            && args.value.Keys == obj.value.Keys
            && forall k :: k in args.value ==> j.encodeValue(obj.value[k], calls(k)) == Some(args.value[k]))
  {
  }

  // ---- round trips ----

  function Parsed(j: Json, argsJSON: string): Option<map<string, string>> {
    if Blank(argsJSON) then Some(map[]) else j.parseObject(argsJSON)
  }

  lemma RenderedIsParsed(j: Json, args: map<string, Bytes>)
    requires Lawful(j)
    ensures SameObject(j, Parsed(j, ArgsToJson(j, args)), RenderedArgs(j, args))
  {
    if args == map[] {
      assert "{}"[0] == '{';
    }
  }

  lemma SameObjectAt(j: Json, parsed: map<string, string>, obj: map<string, string>)
    requires SameObject(j, Some(parsed), obj)
    ensures parsed.Keys == obj.Keys && forall k :: k in obj ==> j.canon(parsed[k]) == j.canon(obj[k])
  {
    assert parsed.Keys == Canonical(j, parsed).Keys == Canonical(j, obj).Keys == obj.Keys;
    forall k | k in obj ensures j.canon(parsed[k]) == j.canon(obj[k]) {
      assert Canonical(j, parsed)[k] == Canonical(j, obj)[k];
    }
  }

  /** Client to Cursor and back: the same parameters, and the same value wherever it is read back. */
  lemma ClientArgumentsRoundTrip(j: Json, argsJSON: string, calls: Numbering)
    requires Lawful(j) && SplitArgs(j, argsJSON, calls).Some?
    ensures Parsed(j, argsJSON).Some?
    ensures SameArguments(j, argsJSON, SplitArgs(j, argsJSON, calls).value)
  {
    var obj, args := Parsed(j, argsJSON).value, SplitArgs(j, argsJSON, calls).value;
    RenderedIsParsed(j, args);
    SameObjectAt(j, Parsed(j, ArgsToJson(j, args)).value, RenderedArgs(j, args));
    assert forall k :: k in args ==> j.encodeValue(obj[k], calls(k)) == Some(args[k]);
  }

  /** The arguments, rendered again, are the client's. */
  ghost predicate SameArguments(j: Json, argsJSON: string, args: map<string, Bytes>) {
    var sent, back := Parsed(j, argsJSON), Parsed(j, ArgsToJson(j, args));
    && sent.Some? && back.Some? && back.value.Keys == sent.value.Keys == args.Keys
    && (forall k :: k in args && j.decodeValue(args[k]).Some? ==> j.canon(back.value[k]) == j.canon(sent.value[k]))
  }

  /** Cursor to client and back: the same parameters, each decoding, where it is read back, to the value
      the client saw. */
  lemma CursorArgumentsRoundTrip(j: Json, args: map<string, Bytes>, calls: Numbering)
    requires Lawful(j) && SplitArgs(j, ArgsToJson(j, args), calls).Some?
    ensures ShowsSame(j, args, SplitArgs(j, ArgsToJson(j, args), calls).value)
  {
    RenderedIsParsed(j, args);
    var parsed, back := Parsed(j, ArgsToJson(j, args)).value, SplitArgs(j, ArgsToJson(j, args), calls).value;
    SameObjectAt(j, parsed, RenderedArgs(j, args));
    assert forall k :: k in back ==> j.encodeValue(parsed[k], calls(k)) == Some(back[k]);
  }

  /** Arguments with the same names, whose values are those the client saw. */
  ghost predicate ShowsSame(j: Json, args: map<string, Bytes>, back: map<string, Bytes>) {
    && back.Keys == args.Keys
    && (forall k :: k in args && j.decodeValue(back[k]).Some? ==>
          j.canon(j.decodeValue(back[k]).value) == j.canon(Rendered(j, args[k])))
  }
}
