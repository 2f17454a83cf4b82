/**
 * The script generator of the `/run-test` handler: a test configuration is
 * mapped to a small intermediate form (the load options, the optional header
 * declaration and one request block per URL), which is then rendered into
 * the k6 script text exactly as the handler's template strings lay it out.
 */
module ScriptGen {
  import opened Text
  import opened Headers
  import Json

  /** A JavaScript number as it ends up in the script: an integer, `undefined`, or `NaN` from arithmetic on `undefined`. */
  datatype Num = Int(i: int) | Undefined | NaN

  /** JavaScript subtraction on such numbers. */
  function Minus(a: Num, b: Num): Num
  {
    if a.Int? && b.Int? then Int(a.i - b.i) else NaN
  }

  /** JavaScript addition on such numbers. */
  function Plus(a: Num, b: Num): Num
  {
    if a.Int? && b.Int? then Int(a.i + b.i) else NaN
  }

  /** How a template string renders such a number. */
  function RenderNum(n: Num): string
  {
    match n
    case Int(i) => IntToString(i)
    case Undefined => "undefined"
    case NaN => "NaN"
  }

  /**
   * The request body of `/run-test`. `rampUpDuration` is `Undefined` when the
   * client leaves it out (it sends it only for the ramp-up profile);
   * `headers` is `None` when the body has no header object.
   */
  datatype Config = Config(
    loadProfile: string,
    users: int,
    duration: int,
    rampUpDuration: Num,
    urls: seq<string>,
    httpMethod: string,
    headers: Option<HeaderList>)

  /** One stage of a ramping profile: reach `target` virtual users over `duration` seconds. */
  datatype Stage = Stage(duration: Num, target: int)

  /** The load part of the script's `options`. */
  datatype LoadOptions = Stages(stages: seq<Stage>) | Constant(vus: int, duration: int)

  /** The request each iteration makes; `NoRequest` when the method is neither GET nor POST. */
  datatype Request = Get | Post | NoRequest

  /** The iteration code for one URL: the request, a status-200 check and a one-second sleep. */
  datatype Block = Block(url: string, request: Request)

  datatype Script = Script(headers: Option<HeaderList>, options: LoadOptions, blocks: seq<Block>)

  /** The `switch (loadProfile)`: ramp-up gets two stages, every other profile the flat stanza. */
  function Options(cfg: Config): LoadOptions
  {
    if cfg.loadProfile == "ramp-up" then
      Stages([Stage(cfg.rampUpDuration, cfg.users), Stage(Minus(Int(cfg.duration), cfg.rampUpDuration), cfg.users)])
    else
      Constant(cfg.users, cfg.duration)
  }

  function RequestFor(httpMethod: string): Request
  {
    if httpMethod == "GET" then Get else if httpMethod == "POST" then Post else NoRequest
  }

  /** `urls.map(...)`: one block per URL, in order, all making the same kind of request. */
  function Blocks(urls: seq<string>, request: Request): (r: seq<Block>)
    ensures |r| == |urls|
    ensures forall i :: 0 <= i < |urls| ==> r[i] == Block(urls[i], request)
  {
    if urls == [] then [] else [Block(urls[0], request)] + Blocks(urls[1..], request)
  }

  /** The header object is declared only when it is present and has at least one key. */
  function HeaderDeclaration(headers: Option<HeaderList>): Option<HeaderList>
  {
    if headers.Some? && |headers.value| > 0 then headers else None
  }

  /** The script the handler writes, in intermediate form. */
  function Generate(cfg: Config): (r: Script)
    ensures r.options.Stages? <==> cfg.loadProfile == "ramp-up"
    ensures r.options.Stages? ==>
      && |r.options.stages| == 2
      && r.options.stages[0].duration == cfg.rampUpDuration
      && r.options.stages[0].target == cfg.users && r.options.stages[1].target == cfg.users
    ensures r.options.Stages? && cfg.rampUpDuration.Int? ==>
      Plus(r.options.stages[0].duration, r.options.stages[1].duration) == Int(cfg.duration)
    ensures r.options.Stages? && !cfg.rampUpDuration.Int? ==> r.options.stages[1].duration == NaN
    ensures r.options.Constant? ==> r.options.vus == cfg.users && r.options.duration == cfg.duration
    ensures |r.blocks| == |cfg.urls|
    ensures forall i :: 0 <= i < |r.blocks| ==> r.blocks[i].url == cfg.urls[i] && r.blocks[i].request == RequestFor(cfg.httpMethod)
    ensures r.headers.Some? <==> cfg.headers.Some? && cfg.headers.value != []
    ensures r.headers.Some? ==> r.headers == cfg.headers
  {
    Script(HeaderDeclaration(cfg.headers), Options(cfg), Blocks(cfg.urls, RequestFor(cfg.httpMethod)))
  }

  /** The `"step"` profile has no stanza of its own: it gets the flat one. */
  lemma StepIsConstant(cfg: Config)
    requires cfg.loadProfile == "step"
    ensures Generate(cfg).options == Constant(cfg.users, cfg.duration)
  {
  }

  /** The script refers to the `headers` constant whenever one of its blocks makes a request. */
  predicate UsesHeaders(s: Script)
  {
    exists i :: 0 <= i < |s.blocks| && s.blocks[i].request != NoRequest
  }

  /** Whenever a block passes `{ headers: headers }` to a request, the script declares `headers`. */
  predicate HeadersDeclared(s: Script)
  {
    UsesHeaders(s) ==> s.headers.Some?
  }

  /**
   * With no header object, or an empty one, the script still passes
   * `{ headers: headers }` to every request but never declares `headers`.
   */
  lemma UndeclaredHeaders(cfg: Config)
    requires cfg.headers == None || cfg.headers == Some([])
    requires cfg.urls != [] && (cfg.httpMethod == "GET" || cfg.httpMethod == "POST")
    ensures !HeadersDeclared(Generate(cfg))
  {
    assert Generate(cfg).blocks[0].request != NoRequest;
  }

  /** The generator with the header object always declared, as `{}` when there is none. */
  function GenerateDeclaringHeaders(cfg: Config): (r: Script)
    ensures HeadersDeclared(r)
    ensures r.headers == Some(if cfg.headers.Some? then cfg.headers.value else [])
    ensures r.options == Generate(cfg).options && r.blocks == Generate(cfg).blocks
    ensures cfg.headers.Some? && cfg.headers.value != [] ==> r == Generate(cfg)
  {
    var g := Generate(cfg);
    Script(Some(if cfg.headers.Some? then cfg.headers.value else []), g.options, g.blocks)
  }

  function RenderStage(s: Stage): string
  {
    "      { duration: '" + RenderNum(s.duration) + "s', target: " + IntToString(s.target) + " },\n"
  }

  function RenderStages(stages: seq<Stage>): string
  {
    ConcatMap(stages, RenderStage)
  }

  /** The `options` stanza: a `stages` list for a staged profile, else the `vus` count and the duration. */
  function RenderOptions(o: LoadOptions): (r: string)
    ensures o.Stages? ==> StartsWith(r, "\n    stages: [\n") && EndsWith(r, "    ],\n    ")
    ensures o.Constant? ==> StartsWith(r, "\n    vus: " + IntToString(o.vus) + ",")
    ensures o.Constant? ==> EndsWith(r, "duration: '" + IntToString(o.duration) + "s',\n    ")
  {
    match o
    case Stages(stages) => "\n    stages: [\n" + RenderStages(stages) + "    ],\n    "
    case Constant(vus, duration) =>
      "\n    vus: " + IntToString(vus) + ",\n    duration: '" + IntToString(duration) + "s',\n    "
  }

  const HeaderDeclarationStart := "\n  const headers = "
  const HeaderDeclarationEnd := ";\n    "

  /** The header declaration: nothing without a header object, else `const headers = ` and JSON that reads back as the object. */
  function RenderHeaders(headers: Option<HeaderList>): (r: string)
    ensures headers.None? <==> r == ""
    ensures headers.Some? ==> exists json :: r == HeaderDeclarationStart + json + HeaderDeclarationEnd && Json.ParseObject(json) == headers
  {
    match headers
    case None => ""
    case Some(h) =>
      Json.StringifyRoundTrip(h);
      HeaderDeclarationStart + Json.Stringify(h) + HeaderDeclarationEnd
  }

  /** How every request ends: the `headers` constant passed as the request's parameters. */
  const PassHeaders := ", { headers: headers });\n    "

  /** The request statement: `http.get` or `http.post` of the URL with the header object, or `undefined` for any other method. */
  function RenderRequest(r: Request): (t: string)
    ensures r == NoRequest <==> t == "undefined"
    ensures r != NoRequest ==> EndsWith(t, PassHeaders)
    ensures r == Get ==> StartsWith(t, "\n      let res = http.get(url")
    ensures r == Post ==> StartsWith(t, "\n      let payload = {};")
  {
    match r
    case Get => "\n      let res = http.get(url" + PassHeaders
    case Post =>
      var payload := "\n      let payload = {};";
      var post := "  // You might want to populate this based on your needs"
        + "\n      let res = http.post(url, JSON.stringify(payload)";
      var t := payload + post + PassHeaders;
      assert t == payload + (post + PassHeaders);
      t
    case NoRequest => "undefined"
  }

  const SleepLine := "\n    sleep(1);  // Add a 1 second sleep between iterations\n    "

  /** The code for one URL: it binds `url` to the URL, makes the request, checks for status 200 and sleeps one second. */
  function RenderBlock(b: Block): (r: string)
    ensures StartsWith(r, "\n    const url = '" + b.url + "';")
    ensures EndsWith(r, SleepLine)
  {
    "\n    const url = '" + b.url + "';\n    " + RenderRequest(b.request)
    + "\n    check(res, { 'status is 200': (r) => r.status === 200 });"
    + SleepLine
  }

  /** `.join("")` of the rendered blocks. */
  function RenderBlocks(blocks: seq<Block>): string
  {
    ConcatMap(blocks, RenderBlock)
  }

  const Imports := "\n  import http from 'k6/http';\n  import { check, sleep } from 'k6';\n\n  "

  /** The template around the header declaration, the options stanza and the body of the default function. */
  function Layout(headers: string, options: string, body: string): (r: string)
    ensures StartsWith(r, Imports + headers)
    ensures EndsWith(r, body + "\n  };\n")
  {
    var head := Imports + headers;
    var tail := body + "\n  };\n";
    var r := head
      + "\n\n  export const options = {\n    "
      + options
      + "\n    thresholds: {\n      http_req_duration: ['p(95)<500'],\n    },\n  };\n\n  export default function () {\n    "
      + tail;
    assert r == head + (r[|head|..|r| - |tail|] + tail);
    r
  }

  /** The script text: the imports and the header declaration first, the blocks last, inside the default function. */
  function Render(s: Script): (r: string)
    ensures StartsWith(r, Imports + RenderHeaders(s.headers))
    ensures EndsWith(r, RenderBlocks(s.blocks) + "\n  };\n")
  {
    Layout(RenderHeaders(s.headers), RenderOptions(s.options), RenderBlocks(s.blocks))
  }

  /** The rendered body is the rendered blocks one after the other: blocks keep the order of the URLs. */
  lemma RenderBlocksAppend(a: seq<Block>, b: seq<Block>)
    ensures RenderBlocks(a + b) == RenderBlocks(a) + RenderBlocks(b)
  {
    ConcatMapAppend(a, b, RenderBlock);
  }

  /** Adding a URL at the end of the list adds its block at the end of the script body. */
  lemma RenderedBodyAppend(urls: seq<string>, url: string, request: Request)
    ensures RenderBlocks(Blocks(urls + [url], request)) ==
      RenderBlocks(Blocks(urls, request)) + RenderBlock(Block(url, request))
  {
    assert Blocks(urls + [url], request) == Blocks(urls, request) + [Block(url, request)];
    RenderBlocksAppend(Blocks(urls, request), [Block(url, request)]);
    ConcatMapSingleton(Block(url, request), RenderBlock);
  }

  /** The header declaration holds the header object in JSON, and it reads back as the same object. */
  lemma HeaderDeclarationReadsBack(h: HeaderList)
    ensures RenderHeaders(Some(h)) == "\n  const headers = " + Json.Stringify(h) + ";\n    "
    ensures Json.ParseObject(Json.Stringify(h)) == Some(h)
  {
    Json.StringifyRoundTrip(h);
  }

  /** The names a block declares with `const` or `let`, in order; `check(res, …)` then reads `res`. */
  function Declares(b: Block): (r: seq<string>)
    ensures r != [] && r[0] == "url"
    ensures "res" in r <==> b.request != NoRequest
    ensures Distinct(r)
  {
    match b.request
    case Get => ["url", "res"]
    case Post => ["url", "payload", "res"]
    case NoRequest => ["url"]
  }

  /**
   * A piece of the default function's body: a block written straight into
   * the body, or a block inside braces `{ … }` of its own.
   */
  datatype Part = Plain(block: Block) | Scoped(block: Block)

  /** The text of one piece of the body. */
  function RenderPart(p: Part): (r: string)
    ensures p.Scoped? ==> StartsWith(r, "\n    {") && EndsWith(r, "}\n    ")
    ensures p.Plain? ==> StartsWith(r, "\n    const url = '" + p.block.url + "';")
  {
    match p
    case Plain(b) => RenderBlock(b)
    case Scoped(b) =>
      var r := "\n    {" + RenderBlock(b) + "}\n    ";
      assert r == "\n    {" + (RenderBlock(b) + "}\n    ");
      r
  }

  /** The blocks as pieces of a body, each in braces when `scoped`. */
  function Parts(blocks: seq<Block>, scoped: bool): (r: seq<Part>)
    ensures |r| == |blocks|
    ensures forall i :: 0 <= i < |r| ==> r[i].block == blocks[i] && r[i].Scoped? == scoped
  {
    if blocks == [] then []
    else [if scoped then Scoped(blocks[0]) else Plain(blocks[0])] + Parts(blocks[1..], scoped)
  }

  /**
   * The names declared directly in the function body by its pieces: a plain
   * block's names land there, a braced block's stay inside its braces.
   */
  function OuterDeclares(parts: seq<Part>): (r: seq<string>)
    ensures parts != [] && parts[0].Plain? ==>
      |Declares(parts[0].block)| <= |r| && r[..|Declares(parts[0].block)|] == Declares(parts[0].block)
  {
    if parts == [] then []
    else (if parts[0].Plain? then Declares(parts[0].block) else []) + OuterDeclares(parts[1..])
  }

  /** The inner scopes the braced pieces open, in order, each with the names declared in it. */
  function InnerScopes(parts: seq<Part>): (r: seq<seq<string>>)
    ensures |r| <= |parts|
  {
    if parts == [] then []
    else (if parts[0].Scoped? then [Declares(parts[0].block)] else []) + InnerScopes(parts[1..])
  }

  /** The body the generator writes is its blocks rendered as plain pieces. */
  lemma {:induction false} RenderPlainParts(blocks: seq<Block>)
    ensures ConcatMap(Parts(blocks, false), RenderPart) == RenderBlocks(blocks)
  {
    if blocks != [] {
      var parts := Parts(blocks, false);
      assert parts[1..] == Parts(blocks[1..], false);
      RenderPlainParts(blocks[1..]);
    }
  }

  /**
   * With two or more URLs the body of the default function declares `url`
   * twice in one scope, which a JavaScript parser rejects.
   */
  lemma RedeclaredUrl(cfg: Config)
    requires |cfg.urls| >= 2
    ensures var blocks := Generate(cfg).blocks;
      ConcatMap(Parts(blocks, false), RenderPart) == RenderBlocks(blocks) &&
      !Distinct(OuterDeclares(Parts(blocks, false)))
  {
    var blocks := Generate(cfg).blocks;
    RenderPlainParts(blocks);
    var parts := Parts(blocks, false);
    var first := Declares(blocks[0]);
    var r := OuterDeclares(parts);
    assert parts[1..] == Parts(blocks[1..], false);
    assert r == first + OuterDeclares(parts[1..]);
    assert OuterDeclares(parts[1..])[0] == "url";
    assert r[0] == "url" && r[|first|] == "url";
  }

  /** With a method other than GET or POST, a block checks `res` without declaring it. */
  lemma UndeclaredRes(cfg: Config)
    requires cfg.urls != [] && cfg.httpMethod != "GET" && cfg.httpMethod != "POST"
    ensures "res" !in Declares(Generate(cfg).blocks[0])
  {
  }

  /** The script with every URL's block in braces of its own. */
  function RenderScoped(s: Script): (r: string)
    ensures StartsWith(r, Imports + RenderHeaders(s.headers))
    ensures EndsWith(r, ConcatMap(Parts(s.blocks, true), RenderPart) + "\n  };\n")
  {
    Layout(RenderHeaders(s.headers), RenderOptions(s.options), ConcatMap(Parts(s.blocks, true), RenderPart))
  }

  /**
   * In the body `RenderScoped` writes, the function body itself declares
   * nothing, each block opens one scope, and no scope declares a name twice.
   */
  lemma {:induction false} ScopedDeclaresOnce(blocks: seq<Block>)
    ensures OuterDeclares(Parts(blocks, true)) == []
    ensures var scopes := InnerScopes(Parts(blocks, true));
      |scopes| == |blocks| &&
      forall i :: 0 <= i < |scopes| ==> scopes[i] == Declares(blocks[i]) && Distinct(scopes[i])
  {
    if blocks != [] {
      var parts := Parts(blocks, true);
      assert parts[1..] == Parts(blocks[1..], true);
      ScopedDeclaresOnce(blocks[1..]);
      var scopes := InnerScopes(parts);
      assert scopes == [Declares(blocks[0])] + InnerScopes(Parts(blocks[1..], true));
    }
  }
}
