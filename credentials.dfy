/**
 * The credentials file of the meeting-notes application: which of the three
 * historical layouts it uses, what loading it yields, and how refreshed
 * tokens are written back in the layout that was found.
 */
module Credentials {
  import opened Wrappers
  import opened Json
  import Text

  const CREDENTIALS_PATH := "~/Library/Application Support/Granola/supabase.json"
  const DEFAULT_CLIENT_ID := "client_01JARHTH2HQ6D64XDAEVXFNQ44"

  /** The layouts, in the order they are tried. */
  datatype Shape = WorkosTokens | CurrentSession | Direct | NoShape

  /** The key whose presence selects each layout. */
  function ShapeKey(s: Shape): string
    requires s != NoShape
  {
    match s
    case WorkosTokens => "workos_tokens"
    case CurrentSession => "currentSession"
    case Direct => "access_token"
  }

  function DetectShape(creds: map<string, Json>): Shape
  {
    if "workos_tokens" in creds then WorkosTokens
    else if "currentSession" in creds then CurrentSession
    else if "access_token" in creds then Direct
    else NoShape
  }

  /** Why loading fails. `Malformed` is a TypeError or AttributeError the loader does not catch. */
  datatype CredError = NotFound(path: string) | ParseFailed | Malformed

  function Message(e: CredError): string
  {
    match e
    case NotFound(path) =>
      "Granola credentials not found at " + path
      + ". Please make sure Granola app is installed and you're logged in."
    case ParseFailed => "Failed to parse Granola credentials file."
    case Malformed => "unexpected credentials layout"
  }

  /** What a successful load assigns. With `NoShape` neither token is assigned. */
  datatype Loaded = Loaded(shape: Shape, access: Json, refresh: Json, clientId: Json)

  /** The token pair held by an object: `o.get('access_token')`, `o.get('refresh_token')`. */
  function PairOf(o: map<string, Json>): (Json, Json)
  {
    (Get(o, "access_token", JNull), Get(o, "refresh_token", JNull))
  }

  /** The token pair of the layout found; for `NoShape`, nothing is read and both stay None. */
  function Tokens(creds: map<string, Json>, codec: Codec): Result<(Json, Json), CredError>
  {
    match DetectShape(creds)
    case WorkosTokens =>
      (match creds["workos_tokens"]
       case JStr(text) =>
         (match codec.parse(text)
          case None => Err(ParseFailed)
          case Some(JObj(t)) => Ok(PairOf(t))
          case Some(_) => Err(Malformed))
       case _ => Err(Malformed))
    case CurrentSession =>
      (match creds["currentSession"]
       case JObj(t) => Ok(PairOf(t))
       case _ => Err(Malformed))
    case Direct => Ok(PairOf(creds))
    case NoShape => Ok((JNull, JNull))
  }

  /** Reading the credentials file; `file` is its text, None when it does not exist. */
  function Load(file: Option<string>, codec: Codec): Result<Loaded, CredError>
  {
    match file
    case None => Err(NotFound(CREDENTIALS_PATH))
    case Some(text) =>
      match codec.parse(text)
      case None => Err(ParseFailed)
      case Some(JObj(creds)) =>
        (match Tokens(creds, codec)
         case Err(e) => Err(e)
         case Ok(pair) =>
           Ok(Loaded(DetectShape(creds), pair.0, pair.1,
                     Get(creds, "client_id", JStr(DEFAULT_CLIENT_ID)))))
      case Some(_) => Err(Malformed)
  }

  /** A missing file fails with a message naming the path it looked at. */
  lemma MissingFileNamesPath(codec: Codec)
    ensures Load(None, codec) == Err(NotFound(CREDENTIALS_PATH))
    ensures Text.Contains(Message(Load(None, codec).error), CREDENTIALS_PATH)
  {
    Text.ContainsMiddle("Granola credentials not found at ", CREDENTIALS_PATH,
      ". Please make sure Granola app is installed and you're logged in.");
  }

  /** Undecodable text, at the top level or inside `workos_tokens`, fails with the parse error. */
  lemma UndecodableFails(text: string, codec: Codec)
    requires codec.parse(text) == None
            || (codec.parse(text).Some? && codec.parse(text).value.JObj?
                && "workos_tokens" in codec.parse(text).value.fields
                && codec.parse(text).value.fields["workos_tokens"].JStr?
                && codec.parse(codec.parse(text).value.fields["workos_tokens"].s) == None)
    ensures Load(Some(text), codec) == Err(ParseFailed)
    ensures Message(Load(Some(text), codec).error) == "Failed to parse Granola credentials file."
  {
  }

  /**
   * With a decodable object, the tokens come from the first layout present,
   * and the client id is the top-level `client_id` or the default, whatever the layout.
   */
  lemma LoadSelectsByPriority(text: string, codec: Codec)
    requires codec.parse(text).Some? && codec.parse(text).value.JObj?
    ensures var creds := codec.parse(text).value.fields;
      var r := Load(Some(text), codec);
      && (r.Ok? ==> r.value.shape == DetectShape(creds)
                    && r.value.clientId == (if "client_id" in creds then creds["client_id"] else JStr(DEFAULT_CLIENT_ID)))
      && ("workos_tokens" in creds && creds["workos_tokens"].JStr?
          && codec.parse(creds["workos_tokens"].s).Some? && codec.parse(creds["workos_tokens"].s).value.JObj?
          ==> r.Ok? && (r.value.access, r.value.refresh) == PairOf(codec.parse(creds["workos_tokens"].s).value.fields))
      && ("workos_tokens" !in creds && "currentSession" in creds && creds["currentSession"].JObj?
          ==> r.Ok? && (r.value.access, r.value.refresh) == PairOf(creds["currentSession"].fields))
      && ("workos_tokens" !in creds && "currentSession" !in creds && "access_token" in creds
          ==> r.Ok? && (r.value.access, r.value.refresh) == PairOf(creds))
      && ("workos_tokens" !in creds && "currentSession" !in creds && "access_token" !in creds
          ==> r.Ok? && r.value.shape == NoShape && r.value.access == JNull && r.value.refresh == JNull)
  {
  }

  /** `o['access_token'] = access; o['refresh_token'] = refresh`. */
  function SetPair(o: map<string, Json>, access: Json, refresh: Json): map<string, Json>
  {
    o["access_token" := access]["refresh_token" := refresh]
  }

  /**
   * The write-back edit of the decoded file. Unlike loading, the last branch is
   * an unconditional `else`: with no recognised layout the tokens go to the top level.
   * None: the edit raised, which is reported as a warning only.
   */
  function WriteBack(creds: map<string, Json>, codec: Codec, access: Json, refresh: Json): Option<map<string, Json>>
  {
    if "workos_tokens" in creds then
      match creds["workos_tokens"]
      case JStr(text) =>
        (match codec.parse(text)
         case Some(JObj(t)) => Some(creds["workos_tokens" := JStr(codec.dump(JObj(SetPair(t, access, refresh))))])
         case _ => None)
      case _ => None
    else if "currentSession" in creds then
      match creds["currentSession"]
      case JObj(t) => Some(creds["currentSession" := JObj(SetPair(t, access, refresh))])
      case _ => None
    else Some(SetPair(creds, access, refresh))
  }

  /** The file text after `_save_refresh_token`; any failure leaves it as it was. */
  function SaveTokens(file: Option<string>, codec: Codec, access: Json, refresh: Json): Option<string>
  {
    match file
    case None => None
    case Some(text) =>
      match codec.parse(text)
      case Some(JObj(creds)) =>
        (match WriteBack(creds, codec, access, refresh)
         case Some(edited) => Some(codec.dump(JObj(edited)))
         case None => file)
      case _ => file
  }

  /**
   * Write-back touches only the two token fields, inside the layout found:
   * every other top-level key keeps its value, and inside the layout's object
   * every other field keeps its value.
   */
  lemma WriteBackTouchesOnlyTokens(creds: map<string, Json>, codec: Codec, access: Json, refresh: Json)
    requires Lossless(codec)
    requires Tokens(creds, codec).Ok?
    ensures WriteBack(creds, codec, access, refresh).Some?
    ensures var edited := WriteBack(creds, codec, access, refresh).value;
      var s := DetectShape(creds);
      && (s == WorkosTokens || s == CurrentSession ==>
            edited.Keys == creds.Keys
            && forall k :: k in creds && k != ShapeKey(s) ==> edited[k] == creds[k])
      && (s == Direct || s == NoShape ==>
            edited.Keys == creds.Keys + {"access_token", "refresh_token"}
            && forall k :: k in creds && k != "access_token" && k != "refresh_token" ==> edited[k] == creds[k])
      && (s == CurrentSession ==>
            edited["currentSession"] == JObj(SetPair(creds["currentSession"].fields, access, refresh)))
      && (s == WorkosTokens ==>
            edited["workos_tokens"].JStr?
            && codec.parse(edited["workos_tokens"].s)
               == Some(JObj(SetPair(codec.parse(creds["workos_tokens"].s).value.fields, access, refresh))))
  {
    match DetectShape(creds)
    case WorkosTokens =>
      var t := codec.parse(creds["workos_tokens"].s).value.fields;
      var inner := codec.dump(JObj(SetPair(t, access, refresh)));
      assert codec.parse(inner) == Some(JObj(SetPair(t, access, refresh)));
      assert WriteBack(creds, codec, access, refresh) == Some(creds["workos_tokens" := JStr(inner)]);
    case CurrentSession =>
      assert WriteBack(creds, codec, access, refresh)
        == Some(creds["currentSession" := JObj(SetPair(creds["currentSession"].fields, access, refresh))]);
    case _ =>
      assert WriteBack(creds, codec, access, refresh) == Some(SetPair(creds, access, refresh));
  }

  /** The edited object keeps its layout and client id, and holds the new tokens in that layout. */
  lemma WriteBackReadsBack(creds: map<string, Json>, codec: Codec, access: Json, refresh: Json)
    requires Lossless(codec)
    requires Tokens(creds, codec).Ok? && DetectShape(creds) != NoShape
    ensures WriteBack(creds, codec, access, refresh).Some?
    ensures var edited := WriteBack(creds, codec, access, refresh).value;
      && DetectShape(edited) == DetectShape(creds)
      && Tokens(edited, codec) == Ok((access, refresh))
      && Get(edited, "client_id", JStr(DEFAULT_CLIENT_ID)) == Get(creds, "client_id", JStr(DEFAULT_CLIENT_ID))
  {
    match DetectShape(creds)
    case WorkosTokens =>
      var t := codec.parse(creds["workos_tokens"].s).value.fields;
      var inner := codec.dump(JObj(SetPair(t, access, refresh)));
      assert codec.parse(inner) == Some(JObj(SetPair(t, access, refresh)));
      assert WriteBack(creds, codec, access, refresh) == Some(creds["workos_tokens" := JStr(inner)]);
    case CurrentSession =>
      assert WriteBack(creds, codec, access, refresh)
        == Some(creds["currentSession" := JObj(SetPair(creds["currentSession"].fields, access, refresh))]);
    case Direct =>
      assert WriteBack(creds, codec, access, refresh) == Some(SetPair(creds, access, refresh));
  }

  /**
   * Shape preservation: after a load that found a layout, writing tokens back
   * and loading again finds the same layout, the same client id, and the new tokens.
   */
  lemma SaveThenLoad(text: string, codec: Codec, access: Json, refresh: Json)
    requires Lossless(codec)
    requires Load(Some(text), codec).Ok? && Load(Some(text), codec).value.shape != NoShape
    ensures var before := Load(Some(text), codec).value;
      var saved := SaveTokens(Some(text), codec, access, refresh);
      && saved.Some?
      && Load(saved, codec) == Ok(Loaded(before.shape, access, refresh, before.clientId))
  {
    var creds := codec.parse(text).value.fields;
    WriteBackReadsBack(creds, codec, access, refresh);
    var edited := WriteBack(creds, codec, access, refresh).value;
    assert codec.parse(codec.dump(JObj(edited))) == Some(JObj(edited));
  }
}
