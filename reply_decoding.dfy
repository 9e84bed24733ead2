/** The tail of the backend's LLM risk analysis: from the HTTP reply to a (risk level, rationale)
    pair, with every failure mapped to an "Error" pair instead of an exception. */
module ReplyDecoding {
  import opened Wrappers
  import opened TextOps

  /** A decoded JSON value, as `json.loads` / `response.json()` hand it to Python. */
  datatype Json =
    | JNull
    | JBool(b: bool)
    | JNum(n: int)
    | JStr(s: string)
    | JArr(items: seq<Json>)
    | JObj(fields: map<string, Json>)

  /** Python's name for the type a JSON value decodes to, as it appears in exception texts. */
  function TypeName(j: Json): string {
    match j
    case JNull => "NoneType"
    case JBool(_) => "bool"
    case JNum(_) => "int"
    case JStr(_) => "str"
    case JArr(_) => "list"
    case JObj(_) => "dict"
  }

  /** `d.get(key, default)` on a decoded object. */
  function Get(fields: map<string, Json>, key: string, default: Json): Json {
    if key in fields then fields[key] else default
  }

  /** Text of the AttributeError raised by calling `.get` on a non-dict. */
  function NoGet(j: Json): string {
    "'" + TypeName(j) + "' object has no attribute 'get'"
  }

  /** The reply the HTTP call produced: its status code and `response.json()`, which may raise. */
  datatype HttpResponse = HttpResponse(statusCode: int, body: Result<Json>)

  /** The pair `analyze_risk_with_llm` returns. */
  datatype Reply = Reply(riskLevel: Json, rationale: Json)

  /** The pair returned from the catch-all handler. */
  function Failed(msg: string): Reply {
    Reply(JStr("Error"), JStr("Analysis failed: " + msg))
  }

  /** The items the block loop walks: the reply's `content` list (none when the key is missing),
      or the exception that reading or iterating it raises. */
  function ContentItems(data: Json): (r: Result<seq<Json>>)
    ensures data.JObj? && "content" !in data.fields ==> r == Ok([])
    ensures data.JObj? && "content" in data.fields && data.fields["content"].JArr? ==>
      r == Ok(data.fields["content"].items)
    ensures !data.JObj? ==> r == Err(NoGet(data))
  {
    match data
    case JObj(fields) =>
      (match Get(fields, "content", JArr([]))
       case JArr(items) => Ok(items)
       // a string iterates over its one-character strings
       case JStr(s) => Ok(seq(|s|, i requires 0 <= i < |s| => JStr([s[i]])))
       // a dict iterates over its keys, all strings: the first `.get` on one raises
       case JObj(keys) => if |keys| == 0 then Ok([]) else Err(NoGet(JStr("")))
       case other => Err("'" + TypeName(other) + "' object is not iterable"))
    case _ => Err(NoGet(data))
  }

  /** What one block adds to `text_content`: its `text` when its `type` is "text", else nothing. */
  function BlockText(block: Json): (r: Result<string>)
    ensures block.JObj? && Get(block.fields, "type", JNull) != JStr("text") ==> r == Ok("")
    ensures block.JObj? && Get(block.fields, "type", JNull) == JStr("text") && "text" !in block.fields ==> r == Ok("")
    ensures (block.JObj? && Get(block.fields, "type", JNull) == JStr("text")
             && "text" in block.fields && block.fields["text"].JStr?) ==> r == Ok(block.fields["text"].s)
    ensures r.Ok? && r.value != "" ==> block.JObj? && block.fields["text"] == JStr(r.value)
  {
    match block
    case JObj(fields) =>
      if Get(fields, "type", JNull) == JStr("text") then
        match Get(fields, "text", JStr(""))
        case JStr(s) => Ok(s)
        case other => Err("can only concatenate str (not \"" + TypeName(other) + "\") to str")
      else Ok("")
    case _ => Err(NoGet(block))
  }

  /** The in-order concatenation of the blocks' texts, or the first block's exception. */
  function TextOfBlocks(items: seq<Json>): Result<string> {
    if items == [] then Ok("")
    else
      match TextOfBlocks(items[..|items| - 1])
      case Err(e) => Err(e)
      case Ok(t) =>
        match BlockText(items[|items| - 1])
        case Err(e) => Err(e)
        case Ok(s) => Ok(t + s)
  }

  /** A well-formed text block carrying `s`. */
  function TextBlock(s: string): Json {
    JObj(map["type" := JStr("text"), "text" := JStr(s)])
  }

  /** The strings of a list, concatenated in order. */
  function ConcatAll(texts: seq<string>): string {
    if texts == [] then "" else ConcatAll(texts[..|texts| - 1]) + texts[|texts| - 1]
  }

  /** A reply made only of text blocks yields their texts, concatenated in order. */
  lemma {:induction false} TextBlocksConcatenate(texts: seq<string>)
    ensures TextOfBlocks(seq(|texts|, i requires 0 <= i < |texts| => TextBlock(texts[i]))) == Ok(ConcatAll(texts))
  {
    var blocks := seq(|texts|, i requires 0 <= i < |texts| => TextBlock(texts[i]));
    if texts != [] {
      var init := texts[..|texts| - 1];
      assert blocks[..|blocks| - 1] == seq(|init|, i requires 0 <= i < |init| => TextBlock(init[i]));
      TextBlocksConcatenate(init);
      assert BlockText(blocks[|blocks| - 1]) == Ok(texts[|texts| - 1]);
    }
  }

  /** Text from consecutive runs of blocks concatenates; an exception in the first run wins. */
  function Concat(a: Result<string>, b: Result<string>): Result<string> {
    match a
    case Err(e) => Err(e)
    case Ok(x) =>
      match b
      case Err(e) => Err(e)
      case Ok(y) => Ok(x + y)
  }

  lemma {:induction false} TextOfBlocksAppend(a: seq<Json>, b: seq<Json>)
    ensures TextOfBlocks(a + b) == Concat(TextOfBlocks(a), TextOfBlocks(b))
  {
    if b == [] {
      assert a + b == a;
      if TextOfBlocks(a).Ok? {
        assert TextOfBlocks(a).value + "" == TextOfBlocks(a).value;
      }
    } else {
      var n := |b|;
      assert (a + b)[..|a + b| - 1] == a + b[..n - 1];
      assert (a + b)[|a + b| - 1] == b[n - 1];
      TextOfBlocksAppend(a, b[..n - 1]);
      var ta, tb, last := TextOfBlocks(a), TextOfBlocks(b[..n - 1]), BlockText(b[n - 1]);
      assert TextOfBlocks(a + b) == Concat(Concat(ta, tb), last);
      assert TextOfBlocks(b) == Concat(tb, last);
      if ta.Ok? && tb.Ok? && last.Ok? {
        assert ta.value + tb.value + last.value == ta.value + (tb.value + last.value);
      }
    }
  }

  /** A block whose type is not "text" can be dropped without changing the extracted text. */
  lemma IgnoresNonTextBlock(a: seq<Json>, block: Json, b: seq<Json>)
    requires block.JObj? && Get(block.fields, "type", JNull) != JStr("text")
    ensures TextOfBlocks(a + [block] + b) == TextOfBlocks(a + b)
  {
    TextOfBlocksAppend(a + [block], b);
    TextOfBlocksAppend(a, [block]);
    TextOfBlocksAppend(a, b);
    assert [block][..0] == [];
    match TextOfBlocks(a)
    case Err(_) =>
    case Ok(x) => assert x + "" == x;
  }

  /** The `text_content +=` loop over the content blocks. */
  method ConcatTextBlocks(items: seq<Json>) returns (r: Result<string>)
    ensures r == TextOfBlocks(items)
  {
    var text := "";
    var i := 0;
    while i < |items|
      invariant 0 <= i <= |items|
      invariant TextOfBlocks(items[..i]) == Ok(text)
    {
      var piece := BlockText(items[i]);
      assert items[..i + 1][..i] == items[..i];
      if piece.Err? {
        assert items == items[..i + 1] + items[i + 1..];
        TextOfBlocksAppend(items[..i + 1], items[i + 1..]);
        return Err(piece.error);
      }
      text := text + piece.value;
      i := i + 1;
    }
    assert items[..i] == items;
    r := Ok(text);
  }

  predicate StartsWithFence(t: string) {
    |t| >= 3 && t[..3] == "```"
  }

  /** The trimmed text, with its first and last lines dropped when it opens a code fence. */
  function StripFence(text: string): string {
    var t := Strip(text);
    if StartsWithFence(t) then
      var lines := Split(t);
      Join(if |lines| >= 2 then lines[1..|lines| - 1] else [])
    else t
  }

  /** Text that does not open a fence is only trimmed. */
  lemma StripFencePassThrough(text: string)
    requires !StartsWithFence(Strip(text))
    ensures StripFence(text) == Strip(text)
  {
  }

  /** A fenced text keeps exactly what lies between its first and its last newline. */
  lemma StripFenceInterior(text: string, i: nat, j: nat)
    requires StartsWithFence(Strip(text))
    requires i < j < |Strip(text)| && Strip(text)[i] == '\n' && Strip(text)[j] == '\n'
    requires NoNewline(Strip(text)[..i]) && NoNewline(Strip(text)[j + 1..])
    ensures StripFence(text) == Strip(text)[i + 1..j]
  {
    var t := Strip(text);
    var a, mid, d := t[..i], t[i + 1..j], t[j + 1..];
    assert t == a + "\n" + (mid + "\n" + d);
    SplitFirstLine(a, mid + "\n" + d);
    SplitLastLine(mid, d);
    var lines := Split(t);
    assert lines == [a] + Split(mid) + [d];
    assert lines[1..|lines| - 1] == Split(mid);
    JoinSplit(mid);
  }

  /** A fenced text with at most one newline leaves nothing. */
  lemma StripFenceSingleLine(text: string)
    requires StartsWithFence(Strip(text))
    requires forall k, l :: 0 <= k < l < |Strip(text)| && Strip(text)[k] == '\n' ==> Strip(text)[l] != '\n'
    ensures StripFence(text) == ""
  {
    var t := Strip(text);
    if NoNewline(t) {
      SplitNoNewline(t);
    } else {
      var i :| 0 <= i < |t| && t[i] == '\n';
      var a, b := t[..i], t[i + 1..];
      assert t == a + "\n" + b;
      assert NoNewline(a);
      assert NoNewline(b);
      SplitFirstLine(a, b);
      SplitNoNewline(b);
    }
  }

  /** The two fields of the parsed reply, each with its default when missing ("Error" for the
      risk level, "No rationale provided" for the rationale); a parsed value that is not an
      object has no `.get` and raises. */
  function ReplyFields(result: Json): (r: Result<Reply>)
    ensures result.JObj? <==> r.Ok?
  {
    match result
    case JObj(fields) =>
      Ok(Reply(Get(fields, "risk_level", JStr("Error")), Get(fields, "rationale", JStr("No rationale provided"))))
    case _ => Err(NoGet(result))
  }

  /** Everything after the status check, up to the exception that stops it. */
  function Decode(body: Result<Json>, parse: string -> Result<Json>): Result<Reply> {
    var data :- body;
    var items :- ContentItems(data);
    var text :- TextOfBlocks(items);
    var result :- parse(StripFence(text));
    ReplyFields(result)
  }

  /** The pair `analyze_risk_with_llm` returns once the HTTP call has been made (`post`, which
      may itself have raised); `parse` stands for `json.loads`. */
  function AnalyzeReply(post: Result<HttpResponse>, parse: string -> Result<Json>): Reply {
    match post
    case Err(msg) => Failed(msg)
    case Ok(resp) =>
      if resp.statusCode != 200 then
        Reply(JStr("Error"), JStr("API Error: " + IntToString(resp.statusCode)))
      else
        match Decode(resp.body, parse)
        case Ok(reply) => reply
        case Err(msg) => Failed(msg)
  }

  /** The decoding steps in the order the source runs them. */
  method AnalyzeRiskReply(post: Result<HttpResponse>, parse: string -> Result<Json>) returns (reply: Reply)
    ensures reply == AnalyzeReply(post, parse)
  {
    if post.Err? {
      return Failed(post.error);
    }
    var resp := post.value;
    if resp.statusCode != 200 {
      return Reply(JStr("Error"), JStr("API Error: " + IntToString(resp.statusCode)));
    }
    if resp.body.Err? {
      return Failed(resp.body.error);
    }
    var items := ContentItems(resp.body.value);
    if items.Err? {
      return Failed(items.error);
    }
    var text := ConcatTextBlocks(items.value);
    if text.Err? {
      return Failed(text.error);
    }
    var result := parse(StripFence(text.value));
    if result.Err? {
      return Failed(result.error);
    }
    var fields := ReplyFields(result.value);
    if fields.Err? {
      return Failed(fields.error);
    }
    reply := fields.value;
  }

  /** The object `json.loads` produced, when every step up to it succeeded. */
  predicate ParsedObject(post: Result<HttpResponse>, parse: string -> Result<Json>, fields: map<string, Json>) {
    && post.Ok? && post.value.statusCode == 200
    && post.value.body.Ok?
    && ContentItems(post.value.body.value).Ok?
    && TextOfBlocks(ContentItems(post.value.body.value).value).Ok?
    && parse(StripFence(TextOfBlocks(ContentItems(post.value.body.value).value).value)) == Ok(JObj(fields))
  }

  /** A non-200 status yields the "API Error" pair, whatever the body. */
  lemma ApiErrorOnStatus(post: Result<HttpResponse>, parse: string -> Result<Json>)
    requires post.Ok? && post.value.statusCode != 200
    ensures AnalyzeReply(post, parse) == Reply(JStr("Error"), JStr("API Error: " + IntToString(post.value.statusCode)))
  {
  }

  /** A parsed object's fields are returned verbatim, with the two defaults for missing keys. */
  lemma ParsedFieldsReturned(post: Result<HttpResponse>, parse: string -> Result<Json>, fields: map<string, Json>)
    requires ParsedObject(post, parse, fields)
    ensures AnalyzeReply(post, parse).riskLevel == Get(fields, "risk_level", JStr("Error"))
    ensures AnalyzeReply(post, parse).rationale == Get(fields, "rationale", JStr("No rationale provided"))
  {
  }

  /** A risk level other than "Error" comes verbatim from the `risk_level` key of the parsed object. */
  lemma RiskLevelProvenance(post: Result<HttpResponse>, parse: string -> Result<Json>)
    requires AnalyzeReply(post, parse).riskLevel != JStr("Error")
    ensures exists fields ::
      && ParsedObject(post, parse, fields)
      && "risk_level" in fields && fields["risk_level"] == AnalyzeReply(post, parse).riskLevel
  {
    var resp := post.value;
    var data := resp.body.value;
    var items := ContentItems(data).value;
    var text := TextOfBlocks(items).value;
    var result := parse(StripFence(text)).value;
    assert ParsedObject(post, parse, result.fields);
  }

  /** Every exception on the way becomes the "Analysis failed" pair carrying its text. */
  lemma FailuresAreCaught(post: Result<HttpResponse>, parse: string -> Result<Json>)
    ensures post.Err? ==> AnalyzeReply(post, parse) == Failed(post.error)
    ensures post.Ok? && post.value.statusCode == 200 && Decode(post.value.body, parse).Err? ==>
      AnalyzeReply(post, parse) == Failed(Decode(post.value.body, parse).error)
  {
  }
}
