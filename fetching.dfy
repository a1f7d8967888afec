/** What the coordinators get from the outside world. HTTP requests, gzip,
    zip archives and `json.loads` are not modelled; `Env` stands for them as
    pure functions from their input to a result or the message of the
    exception they raise. What is modelled is how the code picks among them:
    the decompression chosen from a URL's suffix, the ZIP member read, and
    the reading of a `content-length` header. */
module Fetching {
  import opened Wrappers
  import Text
  import Mrf

  newtype byte = x: int | 0 <= x < 256

  type Bytes = seq<byte>

  /** A completed GET: status code, body, and the `content-encoding` and
      `content-length` headers. */
  datatype Response = Response(status: int, body: Bytes, contentEncoding: Option<string>,
                               contentLength: Option<string>)

  /** A completed HEAD: status code and the `content-length` header. */
  datatype Head = Head(status: int, contentLength: Option<string>)

  /** A member of a ZIP archive; reading it may fail. */
  datatype ZipMember = ZipMember(name: string, data: Result<Bytes, string>)

  datatype Env = Env(
    get: string -> Result<Response, string>,
    head: string -> Result<Head, string>,
    gunzip: Bytes -> Result<Bytes, string>,
    openZip: Bytes -> Result<seq<ZipMember>, string>,
    loadMrf: Bytes -> Result<Mrf.MrfDoc, string>,
    loadIndex: Bytes -> Result<Mrf.IndexDoc, string>,
    statusError: (string, int) -> string)

  /** `resp.raise_for_status()`: any status outside 2xx raises. */
  function RaiseForStatus(env: Env, url: string, resp: Response): (r: Result<Response, string>)
    ensures r.Success? <==> 200 <= resp.status < 300
    ensures r.Success? ==> r.value == resp
  {
    if 200 <= resp.status < 300 then Success(resp) else Failure(env.statusError(url, resp.status))
  }

  /** `int(headers.get("content-length", 0))`: a missing header is 0, a
      header that is not a number raises. */
  function ContentLength(header: Option<string>): (r: Result<nat, string>)
    ensures header.None? ==> r == Success(0)
    ensures header.Some? ==> (r.Success? <==> Text.IsDigits(Text.Strip(header.value)))
    ensures header.Some? && r.Success? ==> r.value == Text.DigitsValue(Text.Strip(header.value))
  {
    match header
    case None => Success(0)
    case Some(text) =>
      var t := Text.Strip(text);
      if Text.IsDigits(t) then Success(Text.DigitsValue(t)) else Failure("invalid literal for int()")
  }

  /** The decompression `process_file` in the full and optimized ingest
      scripts applies, chosen from the URL. */
  datatype Decompression = Gunzip | FirstJsonMember | Raw

  function DecompressionFor(url: string): (d: Decompression)
    ensures d == Gunzip <==> Text.Contains(url, ".json.gz") || Text.EndsWith(url, ".gz")
    ensures d == FirstJsonMember <==>
      !Text.Contains(url, ".json.gz") && !Text.EndsWith(url, ".gz") && Text.EndsWith(url, ".zip")
  {
    if Text.Contains(url, ".json.gz") || Text.EndsWith(url, ".gz") then Gunzip
    else if Text.EndsWith(url, ".zip") then FirstJsonMember
    else Raw
  }

  /** The position of the first member whose name ends in `.json`. */
  function FirstJson(members: seq<ZipMember>): (r: Option<nat>)
    ensures r.Some? ==>
      (r.value < |members| && Text.EndsWith(members[r.value].name, ".json") &&
       forall k :: 0 <= k < r.value ==> !Text.EndsWith(members[k].name, ".json"))
    ensures r.None? ==> forall k :: 0 <= k < |members| ==> !Text.EndsWith(members[k].name, ".json")
  {
    if members == [] then None
    else if Text.EndsWith(members[0].name, ".json") then Some(0)
    else
      match FirstJson(members[1..])
      case None => None
      case Some(k) => Some(k + 1)
  }

  /** Member `k` is the first whose name ends in `.json`. */
  predicate FirstJsonAt(members: seq<ZipMember>, k: int) {
    0 <= k < |members| && Text.EndsWith(members[k].name, ".json") &&
    forall m :: 0 <= m < k ==> !Text.EndsWith(members[m].name, ".json")
  }

  /** The decompression step: gunzip; or the first `.json` member of the
      archive, failing with `noJsonMessage` when there is none; or the body
      as it is. */
  function Decompress(env: Env, url: string, body: Bytes, noJsonMessage: string): Result<Bytes, string> {
    match DecompressionFor(url)
    case Gunzip => env.gunzip(body)
    case Raw => Success(body)
    case FirstJsonMember =>
      match env.openZip(body)
      case Failure(e) => Failure(e)
      case Success(members) =>
        match FirstJson(members)
        case None => Failure(noJsonMessage)
        case Some(k) => members[k].data
  }

  /** A ZIP URL whose archive opens but holds no `.json` member fails with
      the given message; one that holds some reads the first of them. */
  lemma DecompressZip(env: Env, url: string, body: Bytes, noJsonMessage: string)
    requires DecompressionFor(url) == FirstJsonMember && env.openZip(body).Success?
    ensures var members := env.openZip(body).value;
      ((forall k :: 0 <= k < |members| ==> !Text.EndsWith(members[k].name, ".json")) ==>
        Decompress(env, url, body, noJsonMessage) == Failure(noJsonMessage)) &&
      (forall k :: FirstJsonAt(members, k) ==> Decompress(env, url, body, noJsonMessage) == members[k].data)
  {
    var members := env.openZip(body).value;
    var r := FirstJson(members);
    forall k | FirstJsonAt(members, k)
      ensures Decompress(env, url, body, noJsonMessage) == members[k].data
    {
      assert r.Some?;
      assert !(r.value < k) && !(k < r.value);
    }
  }

  /** `httpx.get(url)` followed by the decompression step, with no status
      check: the full and optimized scripts' download. */
  function Downloaded(env: Env, url: string, noJsonMessage: string): Result<Bytes, string> {
    match env.get(url)
    case Failure(e) => Failure(e)
    case Success(resp) => Decompress(env, url, resp.body, noJsonMessage)
  }

  /** `httpx.get(index_url).json()` with no status check: any failure raises. */
  function IndexAt(env: Env, url: string): Result<Mrf.IndexDoc, string> {
    match env.get(url)
    case Failure(e) => Failure(e)
    case Success(resp) => env.loadIndex(resp.body)
  }
}
