/**
 * The browser client's local copy of the shared fields and how it changes: the three
 * socket handlers (`init_state`, `curl_update`, `meta_update`), the two local edits
 * (`updateCurl`, `updateMeta`) that change the copy first and then emit, and the derived
 * yt-dlp command recomputed from the three fields.
 */
module Client {
  import opened Options
  import opened Wire
  import CurlInfo
  import YtDlp

  /** `curlText`, `title` and `episode` as React state. A handler may store any value in them. */
  datatype Fields = Fields(curlText: Value, title: Value, episode: Value)

  /** The three `useState('')`. */
  const Initial: Fields := Fields(Str(""), Str(""), Str(""))

  /** `init_state`: each field from the snapshot, `''` for one that is missing or falsy. */
  function OnInitState(data: Payload): (f: Fields)
    ensures f.curlText == (if Truthy(Get(data, "curl")) then data["curl"] else Str(""))
    ensures f.title == (if Truthy(Get(data, "title")) then data["title"] else Str(""))
    ensures f.episode == (if Truthy(Get(data, "episode")) then data["episode"] else Str(""))
  {
    Fields(Or(Get(data, "curl"), Str("")), Or(Get(data, "title"), Str("")), Or(Get(data, "episode"), Str("")))
  }

  /** `curl_update`: the received value replaces `curlText`, whatever it is; the names stay. */
  function OnCurlUpdate(f: Fields, curl: Value): (r: Fields)
    ensures r.curlText == curl
    ensures r.title == f.title && r.episode == f.episode
  {
    f.(curlText := curl)
  }

  /**
   * `meta_update`: a field takes the payload's value for it whenever that value is not
   * `undefined` (a `null` or a number included), and stays otherwise.
   */
  function OnMetaUpdate(f: Fields, data: Payload): (r: Fields)
    ensures Get(data, "title") != Undefined ==> r.title == data["title"]
    ensures Get(data, "title") == Undefined ==> r.title == f.title
    ensures Get(data, "episode") != Undefined ==> r.episode == data["episode"]
    ensures Get(data, "episode") == Undefined ==> r.episode == f.episode
    ensures r.curlText == f.curlText
  {
    var title := Get(data, "title");
    var episode := Get(data, "episode");
    f.(title := if title != Undefined then title else f.title,
       episode := if episode != Undefined then episode else f.episode)
  }

  /** The handler the message's name selects. */
  function Receive(f: Fields, m: Message): Fields {
    match m
    case InitState(snapshot) => OnInitState(snapshot)
    case CurlUpdate(curl) => OnCurlUpdate(f, curl)
    case MetaUpdate(meta) => OnMetaUpdate(f, meta)
  }

  /** The fields after the handlers have run for each message of `ms`, in arrival order. */
  function ReceiveAll(f: Fields, ms: seq<Message>): Fields {
    if ms == [] then f else Receive(ReceiveAll(f, ms[..|ms| - 1]), ms[|ms| - 1])
  }

  /** Taking in the first message and then the rest is taking in them all. */
  lemma {:induction false} ReceiveAllFirst(f: Fields, ms: seq<Message>)
    requires ms != []
    ensures ReceiveAll(Receive(f, ms[0]), ms[1..]) == ReceiveAll(f, ms)
  {
    if |ms| > 1 {
      var init := ms[..|ms| - 1];
      ReceiveAllFirst(f, init);
      assert init[1..] == ms[1..][..|ms[1..]| - 1];
    }
  }

  /** A message arriving after the others is handled last. */
  lemma ReceiveAllLast(f: Fields, ms: seq<Message>, m: Message)
    ensures ReceiveAll(f, ms + [m]) == Receive(ReceiveAll(f, ms), m)
  {
    assert (ms + [m])[..|ms|] == ms;
  }

  /** A local edit: the new fields and the message emitted after them. */
  datatype Edit = Edit(fields: Fields, sent: Message)

  /** `updateCurl(val)`: set `curlText`, then emit `curl_update` with the new text. */
  function UpdateCurl(f: Fields, val: string): (e: Edit)
    ensures e.fields.curlText == Str(val) && e.fields.title == f.title && e.fields.episode == f.episode
    ensures e.sent == CurlUpdate(Str(val))
  {
    Edit(f.(curlText := Str(val)), CurlUpdate(Str(val)))
  }

  /**
   * `updateMeta(key, val)`: exactly the named field changes, and the payload carries both the
   * title and the episode as they stand after the edit.
   */
  function UpdateMeta(f: Fields, key: string, val: string): (e: Edit)
    ensures e.fields.curlText == f.curlText
    ensures e.fields.title == (if key == "title" then Str(val) else f.title)
    ensures e.fields.episode == (if key == "episode" then Str(val) else f.episode)
    ensures e.sent == MetaUpdate(map["title" := e.fields.title, "episode" := e.fields.episode])
  {
    var title := if key == "title" then Str(val) else f.title;
    var episode := if key == "episode" then Str(val) else f.episode;
    Edit(Fields(f.curlText, title, episode), MetaUpdate(map["title" := title, "episode" := episode]))
  }

  /**
   * The derived command: `convertToYtDlp(extractInfoFromCurl(curlText), title, episode)`.
   * `None` when a field is not a string: `.match` or `.replace` throws a TypeError then.
   */
  function Command(f: Fields): (r: Option<string>)
    ensures r.Some? <==> f.curlText.Str? && f.title.Str? && f.episode.Str?
  {
    if f.curlText.Str? && f.title.Str? && f.episode.Str? then
      Some(YtDlp.YtDlpCommand(CurlInfo.Extract(f.curlText.s), f.title.s, f.episode.s))
    else None
  }

  /** A snapshot of strings replaces all three fields, and its empty strings stay empty strings. */
  lemma InitStateReplacesAll(f: Fields, curl: string, title: string, episode: string)
    ensures Receive(f, InitState(map["curl" := Str(curl), "title" := Str(title), "episode" := Str(episode)]))
      == Fields(Str(curl), Str(title), Str(episode))
  {
  }

  /** A field missing from the snapshot becomes `''`, as does a falsy one. */
  lemma InitStateDefaults(data: Payload)
    requires "title" !in data
    requires "episode" in data && !Truthy(data["episode"])
    ensures OnInitState(data).title == Str("") && OnInitState(data).episode == Str("")
  {
  }

  /** A payload with only `title` changes the title and leaves the episode untouched. */
  lemma MetaTitleOnly(f: Fields, v: Value)
    requires v != Undefined
    ensures OnMetaUpdate(f, map["title" := v]) == f.(title := v)
  {
  }

  /** A payload field is taken exactly when it is not `undefined`, whatever else it is. */
  lemma MetaTakesDefined(f: Fields, data: Payload)
    ensures OnMetaUpdate(f, data).title == f.title <==> Get(data, "title") == Undefined || Get(data, "title") == f.title
    ensures OnMetaUpdate(f, data).episode == f.episode <==> Get(data, "episode") == Undefined || Get(data, "episode") == f.episode
    ensures Get(data, "title") != Undefined ==> OnMetaUpdate(f, data).title == Get(data, "title")
    ensures Get(data, "episode") != Undefined ==> OnMetaUpdate(f, data).episode == Get(data, "episode")
    ensures OnMetaUpdate(f, data).curlText == f.curlText
  {
  }

  /** A client that receives its own meta payload back changes nothing: the edit already applied it. */
  lemma UpdateMetaEchoHarmless(f: Fields, key: string, val: string)
    requires f.title != Undefined && f.episode != Undefined
    ensures var e := UpdateMeta(f, key, val); Receive(e.fields, e.sent) == e.fields
  {
  }
}
