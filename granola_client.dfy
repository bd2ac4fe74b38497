/**
 * The authenticated client of the meeting-notes service: the tokens it holds,
 * the token refresh against the identity provider, and the request that
 * refreshes and retries once when the service answers 401.
 *
 * The network is an oracle `Network`: the reply to a POST depends on the
 * request and on how many POSTs the client issued before it.
 */
module GranolaApi {
  import opened Wrappers
  import opened Json
  import Credentials

  const API_BASE := "https://api.granola.ai"
  const WORKOS_AUTH_URL := "https://api.workos.com/user_management/authenticate"
  const DOCUMENTS_ENDPOINT := "/v2/get-documents"
  const TRANSCRIPT_ENDPOINT := "/v1/get-document-transcript"

  /** One POST: where it goes, its JSON payload, and the bearer token sent (None: no Authorization header). */
  datatype Post = Post(url: string, payload: Json, bearer: Option<Json>)

  /** A reply: its status and its body (None when the body is not JSON), or a connection failure. */
  datatype Reply = Reply(status: int, body: Option<Json>) | ConnectionError

  /** The reply to a request that is the n-th POST of the client (counting from 0). */
  type Network = (Post, nat) -> Reply

  /** `raise_for_status` raises for 4xx and 5xx. */
  predicate IsHttpError(status: int)
  {
    400 <= status < 600
  }

  /**
   * Failures of a client call. `NoRefreshToken`: "No refresh token available";
   * `RefreshFailed`: "Failed to refresh access token: …"; `ApiRequestFailed`:
   * "API request failed: …"; `UnexpectedShape`: a KeyError, TypeError or
   * AttributeError raised by a reply of an unexpected shape.
   */
  datatype ClientError = NoRefreshToken | RefreshFailed | ApiRequestFailed | UnexpectedShape

  /** The client's fields and what it has done to the world: the credentials file and the POSTs issued. */
  datatype ClientState = ClientState(
    access: Json, refresh: Json, clientId: Json,
    credFile: Option<string>, posts: seq<Post>)

  function RefreshPayload(clientId: Json, refresh: Json): Json
  {
    JObj(map["client_id" := clientId, "grant_type" := JStr("refresh_token"), "refresh_token" := refresh])
  }

  /** `_refresh_access_token`, followed by `_save_refresh_token` when it succeeds. */
  function Refresh(st: ClientState, codec: Codec, net: Network): (Outcome: (Option<ClientError>, ClientState))
  {
    if Falsy(st.refresh) then (Some(NoRefreshToken), st)
    else
      var req := Post(WORKOS_AUTH_URL, RefreshPayload(st.clientId, st.refresh), None);
      var st1 := st.(posts := st.posts + [req]);
      match net(req, |st.posts|)
      case ConnectionError => (Some(RefreshFailed), st1)
      case Reply(status, body) =>
        if IsHttpError(status) || body.None? then (Some(RefreshFailed), st1)
        else match body.value
          case JObj(data) =>
            if "access_token" !in data then (Some(UnexpectedShape), st1)
            else if "refresh_token" !in data then (Some(UnexpectedShape), st1.(access := data["access_token"]))
            else
              var a, r := data["access_token"], data["refresh_token"];
              (None, st1.(access := a, refresh := r, credFile := Credentials.SaveTokens(st1.credFile, codec, a, r)))
          case _ => (Some(UnexpectedShape), st1)
  }

  /** `_make_request(endpoint, payload, retry_auth)`. */
  function MakeRequest(st: ClientState, codec: Codec, net: Network, endpoint: string, payload: Json, retry: bool)
    : (Result<Json, ClientError>, ClientState)
    decreases if retry then 1 else 0
  {
    var req := Post(API_BASE + endpoint, payload, Some(st.access));
    var st1 := st.(posts := st.posts + [req]);
    match net(req, |st.posts|)
    case ConnectionError => (Err(ApiRequestFailed), st1)
    case Reply(status, body) =>
      if status == 401 && retry then
        var (failure, st2) := Refresh(st1, codec, net);
        if failure.Some? then (Err(failure.value), st2)
        else MakeRequest(st2, codec, net, endpoint, payload, false)
      else if IsHttpError(status) || body.None? then (Err(ApiRequestFailed), st1)
      else (Ok(body.value), st1)
  }

  /** The POSTs a call added to the log. */
  function Added(before: ClientState, after: ClientState): seq<Post>
    requires |before.posts| <= |after.posts|
  {
    after.posts[|before.posts|..]
  }

  /** A refresh issues at most one POST, to the identity provider, and none without a refresh token. */
  lemma RefreshPosts(st: ClientState, codec: Codec, net: Network)
    ensures var (failure, st') := Refresh(st, codec, net);
      && |st.posts| <= |st'.posts| && st'.posts[..|st.posts|] == st.posts
      && (Falsy(st.refresh) ==> failure == Some(NoRefreshToken) && st' == st)
      && (!Falsy(st.refresh) ==> Added(st, st') == [Post(WORKOS_AUTH_URL, RefreshPayload(st.clientId, st.refresh), None)])
      && st'.clientId == st.clientId
  {
  }

  /**
   * A successful refresh replaces both tokens with the reply's, and writes them
   * back to the credentials file exactly as `SaveTokens` does.
   */
  lemma RefreshSuccess(st: ClientState, codec: Codec, net: Network)
    ensures var (failure, st') := Refresh(st, codec, net);
      failure.None? ==>
        var reply := net(Post(WORKOS_AUTH_URL, RefreshPayload(st.clientId, st.refresh), None), |st.posts|);
        && !Falsy(st.refresh)
        && reply.Reply? && !IsHttpError(reply.status) && reply.body.Some? && reply.body.value.JObj?
        && st'.access == reply.body.value.fields["access_token"]
        && st'.refresh == reply.body.value.fields["refresh_token"]
        && st'.credFile == Credentials.SaveTokens(st.credFile, codec, st'.access, st'.refresh)
  {
  }

  /**
   * Conversely, a good object reply holding both tokens makes the refresh
   * succeed, whatever becomes of the write-back, which only warns.
   */
  lemma RefreshSucceedsOnGoodReply(st: ClientState, codec: Codec, net: Network)
    requires !Falsy(st.refresh)
    requires var reply := net(Post(WORKOS_AUTH_URL, RefreshPayload(st.clientId, st.refresh), None), |st.posts|);
      && reply.Reply? && !IsHttpError(reply.status) && reply.body.Some? && reply.body.value.JObj?
      && "access_token" in reply.body.value.fields && "refresh_token" in reply.body.value.fields
    ensures var (failure, st') := Refresh(st, codec, net);
      var reply := net(Post(WORKOS_AUTH_URL, RefreshPayload(st.clientId, st.refresh), None), |st.posts|);
      && failure.None?
      && st'.access == reply.body.value.fields["access_token"]
      && st'.refresh == reply.body.value.fields["refresh_token"]
  {
  }

  /** A failed refresh leaves the credentials file and the refresh token untouched. */
  lemma RefreshFailureKeepsFile(st: ClientState, codec: Codec, net: Network)
    ensures var (failure, st') := Refresh(st, codec, net);
      failure.Some? ==> st'.credFile == st.credFile && st'.refresh == st.refresh
  {
  }

  /** Without retrying, a call issues exactly one POST and changes nothing else. */
  lemma NoRetryOnePost(st: ClientState, codec: Codec, net: Network, endpoint: string, payload: Json)
    ensures MakeRequest(st, codec, net, endpoint, payload, false).1
      == st.(posts := st.posts + [Post(API_BASE + endpoint, payload, Some(st.access))])
  {
  }

  /**
   * Retry once: a call issues one API POST; it refreshes only when that POST
   * was answered 401 and retrying is allowed; after a successful refresh it
   * issues exactly one more API POST, with the new token and without retry.
   * So there are at most two API POSTs and at most one refresh.
   */
  lemma {:induction false} RetryOnce(st: ClientState, codec: Codec, net: Network, endpoint: string, payload: Json, retry: bool)
    ensures var (r, st') := MakeRequest(st, codec, net, endpoint, payload, retry);
      var first := Post(API_BASE + endpoint, payload, Some(st.access));
      var unauthorized := net(first, |st.posts|).Reply? && net(first, |st.posts|).status == 401;
      && |st.posts| < |st'.posts| <= |st.posts| + 3
      && st'.posts[..|st.posts|] == st.posts
      && Added(st, st')[0] == first
      && (|Added(st, st')| > 1 <==> retry && unauthorized && !Falsy(st.refresh))
      && (|Added(st, st')| > 1 ==> Added(st, st')[1].url == WORKOS_AUTH_URL)
      && (|Added(st, st')| == 3 ==>
            Added(st, st')[2] == Post(API_BASE + endpoint, payload, Some(st'.access)))
      && (!(retry && unauthorized) ==> st'.access == st.access && st'.refresh == st.refresh && st'.credFile == st.credFile)
  {
    var first := Post(API_BASE + endpoint, payload, Some(st.access));
    var st1 := st.(posts := st.posts + [first]);
    var reply := net(first, |st.posts|);
    if reply.Reply? && reply.status == 401 && retry {
      RefreshPosts(st1, codec, net);
      var (failure, st2) := Refresh(st1, codec, net);
      if failure.None? {
        NoRetryOnePost(st2, codec, net, endpoint, payload);
        var second := Post(API_BASE + endpoint, payload, Some(st2.access));
        var st3 := MakeRequest(st2, codec, net, endpoint, payload, false).1;
        var auth := Post(WORKOS_AUTH_URL, RefreshPayload(st1.clientId, st1.refresh), None);
        assert st2.posts == st.posts + [first, auth];
        assert st3.posts == st.posts + [first, auth, second];
        assert Added(st, st3) == [first, auth, second];
      }
    }
  }

  /** Two 401s in a row: the call fails, after exactly one refresh and no third API POST. */
  lemma {:induction false} SecondUnauthorizedFails(st: ClientState, codec: Codec, net: Network, endpoint: string, payload: Json)
    requires var first := Post(API_BASE + endpoint, payload, Some(st.access));
      net(first, |st.posts|).Reply? && net(first, |st.posts|).status == 401
    requires var (failure, st2) := Refresh(st.(posts := st.posts + [Post(API_BASE + endpoint, payload, Some(st.access))]), codec, net);
      failure.None? &&
      var second := Post(API_BASE + endpoint, payload, Some(st2.access));
      net(second, |st2.posts|).Reply? && net(second, |st2.posts|).status == 401
    ensures var (r, st') := MakeRequest(st, codec, net, endpoint, payload, true);
      r == Err(ApiRequestFailed) && |st'.posts| == |st.posts| + 3
  {
    var first := Post(API_BASE + endpoint, payload, Some(st.access));
    var st1 := st.(posts := st.posts + [first]);
    RefreshPosts(st1, codec, net);
  }

  /** A 401 followed, after the refresh, by a good reply: the call returns that reply's body. */
  lemma {:induction false} RetrySucceeds(st: ClientState, codec: Codec, net: Network, endpoint: string, payload: Json)
    requires var first := Post(API_BASE + endpoint, payload, Some(st.access));
      net(first, |st.posts|).Reply? && net(first, |st.posts|).status == 401
    requires var (failure, st2) := Refresh(st.(posts := st.posts + [Post(API_BASE + endpoint, payload, Some(st.access))]), codec, net);
      failure.None? &&
      var second := Post(API_BASE + endpoint, payload, Some(st2.access));
      net(second, |st2.posts|).Reply? && !IsHttpError(net(second, |st2.posts|).status) && net(second, |st2.posts|).body.Some?
    ensures var (r, st') := MakeRequest(st, codec, net, endpoint, payload, true);
      var (_, st2) := Refresh(st.(posts := st.posts + [Post(API_BASE + endpoint, payload, Some(st.access))]), codec, net);
      r == Ok(net(Post(API_BASE + endpoint, payload, Some(st2.access)), |st2.posts|).body.value)
      && |st'.posts| == |st.posts| + 3 && st'.posts[|st.posts| + 1].url == WORKOS_AUTH_URL
  {
    var first := Post(API_BASE + endpoint, payload, Some(st.access));
    var st1 := st.(posts := st.posts + [first]);
    RefreshPosts(st1, codec, net);
  }

  /** `response.get('docs', [])`; a reply that is not an object raises AttributeError. */
  function DocsOf(body: Json): (r: Result<Json, ClientError>)
    ensures r.Ok? <==> body.JObj?
    ensures body.JObj? && "docs" in body.fields ==> r == Ok(body.fields["docs"])
    ensures body.JObj? && "docs" !in body.fields ==> r == Ok(JArr([]))
  {
    match body
    case JObj(m) => Ok(Get(m, "docs", JArr([])))
    case _ => Err(UnexpectedShape)
  }

  /** The transcript endpoint answers with a bare list; anything else counts as an empty transcript. */
  function TranscriptOf(body: Json): (r: Json)
    ensures r.JArr?
    ensures body.JArr? ==> r == body
    ensures !body.JArr? ==> r == JArr([])
  {
    if body.JArr? then body else JArr([])
  }

  function DocumentsPayload(limit: int, offset: int): Json
  {
    JObj(map["limit" := JNum(limit), "offset" := JNum(offset), "include_last_viewed_panel" := JBool(true)])
  }

  class GranolaClient {
    var accessToken: Json
    var refreshToken: Json
    var clientId: Json
    /** The text of the credentials file; None when it does not exist. */
    var credFile: Option<string>
    /** Every POST issued so far, in order. */
    var posts: seq<Post>
    const codec: Codec
    const net: Network

    function State(): ClientState
      reads this
    {
      ClientState(accessToken, refreshToken, clientId, credFile, posts)
    }

    /**
     * The fields as `__init__` sets them before loading the credentials; the
     * load that `__init__` runs next is the separate call `LoadCredentials`.
     */
    constructor (credFile: Option<string>, codec: Codec, net: Network)
      ensures State() == ClientState(JNull, JNull, JNull, credFile, [])
      ensures this.codec == codec && this.net == net
    {
      this.accessToken := JNull;
      this.refreshToken := JNull;
      this.clientId := JNull;
      this.credFile := credFile;
      this.posts := [];
      this.codec := codec;
      this.net := net;
    }

    /**
     * `_load_credentials`: on success the layout's tokens (if a layout was
     * found) and the client id are assigned; on failure nothing is.
     */
    method LoadCredentials() returns (failure: Option<Credentials.CredError>)
      modifies this
      ensures var r := Credentials.Load(old(credFile), codec);
        && failure == (if r.Err? then Some(r.error) else None)
        && credFile == old(credFile) && posts == old(posts)
        && (r.Err? ==> State() == old(State()))
        && (r.Ok? ==> clientId == r.value.clientId)
        && (r.Ok? && r.value.shape != Credentials.NoShape ==> accessToken == r.value.access && refreshToken == r.value.refresh)
        && (r.Ok? && r.value.shape == Credentials.NoShape ==> accessToken == old(accessToken) && refreshToken == old(refreshToken))
    {
      var r := Credentials.Load(credFile, codec);
      if r.Err? {
        return Some(r.error);
      }
      if r.value.shape != Credentials.NoShape {
        accessToken := r.value.access;
        refreshToken := r.value.refresh;
      }
      clientId := r.value.clientId;
      failure := None;
    }

    /** `_save_refresh_token`. */
    method SaveRefreshToken()
      modifies this`credFile
      ensures credFile == Credentials.SaveTokens(old(credFile), codec, accessToken, refreshToken)
    {
      credFile := Credentials.SaveTokens(credFile, codec, accessToken, refreshToken);
    }

    /** `_refresh_access_token`. */
    method RefreshAccessToken() returns (failure: Option<ClientError>)
      modifies this
      ensures (failure, State()) == Refresh(old(State()), codec, net)
    {
      if Falsy(refreshToken) {
        return Some(NoRefreshToken);
      }
      var req := Post(WORKOS_AUTH_URL, RefreshPayload(clientId, refreshToken), None);
      var reply := net(req, |posts|);
      posts := posts + [req];
      if reply.ConnectionError? || IsHttpError(reply.status) || reply.body.None? {
        return Some(RefreshFailed);
      }
      if !reply.body.value.JObj? {
        return Some(UnexpectedShape);
      }
      var data := reply.body.value.fields;
      if "access_token" !in data {
        return Some(UnexpectedShape);
      }
      accessToken := data["access_token"];
      if "refresh_token" !in data {
        return Some(UnexpectedShape);
      }
      refreshToken := data["refresh_token"];
      SaveRefreshToken();
      failure := None;
    }

    /** `_make_request`: the recursion happens at most once, with retrying switched off. */
    method Request(endpoint: string, payload: Json, retry: bool) returns (r: Result<Json, ClientError>)
      modifies this
      ensures (r, State()) == MakeRequest(old(State()), codec, net, endpoint, payload, retry)
      decreases if retry then 1 else 0
    {
      var req := Post(API_BASE + endpoint, payload, Some(accessToken));
      var reply := net(req, |posts|);
      posts := posts + [req];
      match reply
      case ConnectionError =>
        r := Err(ApiRequestFailed);
      case Reply(status, body) =>
        if status == 401 && retry {
          var failure := RefreshAccessToken();
          if failure.Some? {
            r := Err(failure.value);
          } else {
            r := Request(endpoint, payload, false);
          }
        } else if IsHttpError(status) || body.None? {
          r := Err(ApiRequestFailed);
        } else {
          r := Ok(body.value);
        }
    }

    /** `get_documents(limit, offset)`. */
    method GetDocuments(limit: int, offset: int) returns (r: Result<Json, ClientError>)
      modifies this
      ensures var (reply, st) := MakeRequest(old(State()), codec, net, DOCUMENTS_ENDPOINT, DocumentsPayload(limit, offset), true);
        State() == st && r == (if reply.Err? then reply else DocsOf(reply.value))
    {
      var reply := Request(DOCUMENTS_ENDPOINT, DocumentsPayload(limit, offset), true);
      if reply.Err? {
        return reply;
      }
      r := DocsOf(reply.value);
    }

    /** `get_document_transcript(document_id)`. */
    method GetDocumentTranscript(documentId: string) returns (r: Result<Json, ClientError>)
      modifies this
      ensures var (reply, st) := MakeRequest(old(State()), codec, net, TRANSCRIPT_ENDPOINT, JObj(map["document_id" := JStr(documentId)]), true);
        State() == st && r == (if reply.Err? then reply else Ok(TranscriptOf(reply.value)))
    {
      var reply := Request(TRANSCRIPT_ENDPOINT, JObj(map["document_id" := JStr(documentId)]), true);
      if reply.Err? {
        return reply;
      }
      r := Ok(TranscriptOf(reply.value));
    }
  }
}
