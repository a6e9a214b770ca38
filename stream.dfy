/**
 * The server-sent-events framing shared by the backend writer
 * (backend/src/routes/chat.ts writes `data: <json>\n\n`) and the frontend
 * reader `parseSSEChunk` (frontend/src/lib/stream.ts).
 *
 * JSON is abstract: `encode` stands for `JSON.stringify` and `decode` for a
 * `JSON.parse` that returns `None` where the source would throw.
 */
module Stream {
  import opened Wrappers
  import opened Text

  /** `SSEParsedItem`: every field is optional. */
  datatype SseItem = SseItem(token: Option<string>, done: Option<bool>, error: Option<string>)

  /** `{ token: t }` */
  function TokenItem(t: string): SseItem { SseItem(Some(t), None, None) }
  /** `{ done: true }` */
  function DoneItem(): SseItem { SseItem(None, Some(true), None) }
  /** `{ error: m }` */
  function ErrorItem(m: string): SseItem { SseItem(None, None, Some(m)) }

  const DataPrefix: string := "data: "
  const Separator: string := "\n\n"

  /**
   * `s.split("\n\n")`: the pieces between leftmost, non-overlapping
   * occurrences of the separator; there is always at least one piece.
   */
  function SplitParts(s: string): (parts: seq<string>)
    ensures |parts| >= 1
    decreases |s|
  {
    if |s| < 2 then [s]
    else if s[0] == '\n' && s[1] == '\n' then [""] + SplitParts(s[2..])
    else
      var rest := SplitParts(s[1..]);
      [[s[0]] + rest[0]] + rest[1..]
  }

  /** Joining the split parts with the separator gives the chunk back. */
  lemma {:induction false} SplitPartsJoin(s: string)
    ensures Join(SplitParts(s), Separator) == s
    decreases |s|
  {
    if |s| < 2 {
    } else if s[0] == '\n' && s[1] == '\n' {
      SplitPartsJoin(s[2..]);
      assert s == Separator + s[2..];
    } else {
      SplitPartsJoin(s[1..]);
      JoinExtendsFirst(s[0], SplitParts(s[1..]), Separator);
      assert s == [s[0]] + s[1..];
    }
  }

  /** Putting a character in front of the first part puts it in front of the joined text. */
  lemma JoinExtendsFirst(c: char, parts: seq<string>, sep: string)
    requires |parts| >= 1
    ensures Join([[c] + parts[0]] + parts[1..], sep) == [c] + Join(parts, sep)
  {
    var ext := [[c] + parts[0]] + parts[1..];
    if |parts| > 1 {
      assert ext[1..] == parts[1..];
      assert ext[0] == [c] + parts[0];
    }
  }

  /**
   * Each read is parsed by itself. When a read ends between the two
   * newlines of a separator, the cut frame `x` still forms a whole part
   * (with a trailing newline, which `JSON.parse` tolerates), but the next
   * read's first part then begins with a newline, so the whole frame `y`
   * after the cut is lost.
   */
  lemma CutInsideSeparator(x: string, y: string, decode: string -> Option<SseItem>)
    requires '\n' !in x && '\n' !in y
    ensures SplitParts(DataPrefix + x + "\n") == [DataPrefix + x + "\n"]
    ensures SplitParts("\n" + DataPrefix + y + Separator) == ["\n" + DataPrefix + y, ""]
    ensures ParseParts(SplitParts("\n" + DataPrefix + y + Separator), decode) == []
  {
    NoNewlineInData(x);
    OneNewlineEnd(DataPrefix + x);
    NoNewlineInData(y);
    LeadingNewlineJoinsPart(DataPrefix + y);
    var p := "\n" + DataPrefix + y;
    assert p == "\n" + (DataPrefix + y);
    assert p + Separator == "\n" + (DataPrefix + y) + Separator;
    assert p[..|DataPrefix|] != DataPrefix by {
      assert p[0] == '\n' && DataPrefix[0] == 'd';
    }
    assert ParseParts([p, ""], decode) == ParseParts([p], decode) + ParsePart("", decode) by {
      assert [p, ""][..1] == [p];
    }
    assert ParseParts([p], decode) == ParsePart(p, decode) by {
      assert [p][..0] == [];
    }
  }

  /** A `data: ` line with a newline-free payload holds no newline. */
  lemma NoNewlineInData(x: string)
    requires '\n' !in x
    ensures '\n' !in DataPrefix + x
  {
    assert '\n' !in DataPrefix;
  }

  /** A newline before a newline-free text and a separator joins that text's part. */
  lemma LeadingNewlineJoinsPart(x: string)
    requires '\n' !in x && x != []
    ensures SplitParts("\n" + x + Separator) == ["\n" + x, ""]
  {
    var s := "\n" + x + Separator;
    assert s[1..] == x + Separator + "";
    SplitAtSeparator(x, "");
    assert SplitParts("") == [""];
    assert s[1] == x[0] && x[0] != '\n';
    assert [s[0]] + x == "\n" + x;
  }

  /** A newline-free text ending in one newline is a single part. */
  lemma {:induction false} OneNewlineEnd(x: string)
    requires '\n' !in x
    ensures SplitParts(x + "\n") == [x + "\n"]
  {
    var s := x + "\n";
    if x != [] {
      assert s[1..] == x[1..] + "\n";
      OneNewlineEnd(x[1..]);
      assert [s[0]] + (x[1..] + "\n") == s;
    }
  }

  /** What one part adds to the results: its decoded payload if it is a well-formed `data: ` line. */
  function ParsePart(part: string, decode: string -> Option<SseItem>): seq<SseItem> {
    if !StartsWith(part, DataPrefix) then []
    else match decode(part[|DataPrefix|..])
      case None => []
      case Some(item) => [item]
  }

  /** The results for a list of parts, in order. */
  function ParseParts(parts: seq<string>, decode: string -> Option<SseItem>): (r: seq<SseItem>)
    ensures |r| <= |parts|
  {
    if parts == [] then []
    else ParseParts(parts[..|parts| - 1], decode) + ParsePart(parts[|parts| - 1], decode)
  }

  /** `parseSSEChunk`: a loop over the split parts that skips what does not parse. */
  method ParseSseChunk(chunk: string, decode: string -> Option<SseItem>) returns (results: seq<SseItem>)
    ensures results == ParseParts(SplitParts(chunk), decode)
    ensures |results| <= |SplitParts(chunk)|
  {
    results := [];
    var parts := SplitParts(chunk);
    for i := 0 to |parts|
      invariant results == ParseParts(parts[..i], decode)
    {
      assert parts[..i + 1][..i] == parts[..i];
      var part := parts[i];
      if !StartsWith(part, DataPrefix) {
        continue;
      }
      var json := part[|DataPrefix|..];
      match decode(json)
      case None =>
      case Some(parsed) =>
        results := results + [parsed];
    }
    assert parts[..|parts|] == parts;
  }

  /** Parsing a list of parts is parsing each half and concatenating the results. */
  lemma {:induction false} ParsePartsAppend(ps: seq<string>, qs: seq<string>, decode: string -> Option<SseItem>)
    ensures ParseParts(ps + qs, decode) == ParseParts(ps, decode) + ParseParts(qs, decode)
  {
    if qs == [] {
      assert ps + qs == ps;
    } else {
      var init := qs[..|qs| - 1];
      assert (ps + qs)[..|ps + qs| - 1] == ps + init;
      ParsePartsAppend(ps, init, decode);
    }
  }

  /**
   * A part that does not start with `data: `, or whose payload does not
   * decode, contributes nothing and does not stop the parts after it.
   */
  lemma SkippedPartIsHarmless(ps: seq<string>, bad: string, qs: seq<string>, decode: string -> Option<SseItem>)
    requires !StartsWith(bad, DataPrefix) || decode(bad[|DataPrefix|..]) == None
    ensures ParseParts(ps + [bad] + qs, decode) == ParseParts(ps, decode) + ParseParts(qs, decode)
  {
    ParsePartsAppend(ps + [bad], qs, decode);
    assert (ps + [bad])[..|ps|] == ps;
    assert ParsePart(bad, decode) == [];
    assert ParseParts(ps + [bad], decode) == ParseParts(ps, decode) + ParsePart(bad, decode);
  }

  /** Parsing the empty chunk yields no items. */
  lemma EmptyChunkYieldsNothing(decode: string -> Option<SseItem>)
    ensures ParseParts(SplitParts(""), decode) == []
  {
    assert SplitParts("") == [""];
  }

  /** One frame as the backend writes it: `data: ${JSON.stringify(item)}\n\n`. */
  function Frame(encode: SseItem -> string, item: SseItem): string {
    DataPrefix + encode(item) + Separator
  }

  /** The frames of `items`, back to back, as they appear on the wire. */
  function Serialize(encode: SseItem -> string, items: seq<SseItem>): string {
    if items == [] then "" else Frame(encode, items[0]) + Serialize(encode, items[1..])
  }

  /** A piece without line feeds followed by the separator splits off as one part. */
  lemma {:induction false} SplitAtSeparator(x: string, rest: string)
    requires '\n' !in x
    ensures SplitParts(x + Separator + rest) == [x] + SplitParts(rest)
  {
    var s := x + Separator + rest;
    if x == [] {
      assert s[2..] == rest;
    } else {
      assert s[1..] == x[1..] + Separator + rest;
      assert x[0] != '\n';
      SplitAtSeparator(x[1..], rest);
      assert [s[0]] + x[1..] == x;
    }
  }

  /** The wire text of `items` splits into one `data: ` part per item and a trailing empty part. */
  lemma {:induction false} SplitSerialized(encode: SseItem -> string, items: seq<SseItem>)
    requires forall e :: '\n' !in encode(e)
    ensures SplitParts(Serialize(encode, items))
         == seq(|items|, i requires 0 <= i < |items| => DataPrefix + encode(items[i])) + [""]
  {
    if items == [] {
      assert SplitParts("") == [""];
    } else {
      var x := DataPrefix + encode(items[0]);
      assert '\n' !in x by {
        assert '\n' !in encode(items[0]);
        assert '\n' !in DataPrefix;
      }
      assert Frame(encode, items[0]) + Serialize(encode, items[1..])
          == x + Separator + Serialize(encode, items[1..]);
      SplitAtSeparator(x, Serialize(encode, items[1..]));
      SplitSerialized(encode, items[1..]);
    }
  }

  /** Each `data: ` part of a serialized item decodes back to that item. */
  lemma {:induction false} ParseDataParts(encode: SseItem -> string, decode: string -> Option<SseItem>, items: seq<SseItem>)
    requires forall e :: decode(encode(e)) == Some(e)
    ensures ParseParts(seq(|items|, i requires 0 <= i < |items| => DataPrefix + encode(items[i])), decode) == items
  {
    if items != [] {
      var parts := seq(|items|, i requires 0 <= i < |items| => DataPrefix + encode(items[i]));
      var init := items[..|items| - 1];
      assert parts[..|parts| - 1] == seq(|init|, i requires 0 <= i < |init| => DataPrefix + encode(init[i]));
      ParseDataParts(encode, decode, init);
      var last := parts[|parts| - 1];
      assert StartsWith(last, DataPrefix);
      assert last[|DataPrefix|..] == encode(items[|items| - 1]);
      assert init + [items[|items| - 1]] == items;
    }
  }

  /**
   * Round trip: what the backend writes for `items` is parsed by the frontend
   * back to `items`, in order, when `JSON.parse` undoes `JSON.stringify` and
   * the encoding has no line feed (`JSON.stringify` escapes them).
   */
  lemma WireRoundTrip(encode: SseItem -> string, decode: string -> Option<SseItem>, items: seq<SseItem>)
    requires forall e :: decode(encode(e)) == Some(e)
    requires forall e :: '\n' !in encode(e)
    ensures ParseParts(SplitParts(Serialize(encode, items)), decode) == items
  {
    var parts := seq(|items|, i requires 0 <= i < |items| => DataPrefix + encode(items[i]));
    SplitSerialized(encode, items);
    ParsePartsAppend(parts, [""], decode);
    assert ParseParts([""], decode) == [];
    ParseDataParts(encode, decode, items);
  }
}
