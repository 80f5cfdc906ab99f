/**
 * Client construction and its functional options (client.go:75-78,
 * client.go:116-130, options.go:31-88).
 *
 * NewClient builds a Client with the default base URL and a fresh HTTP
 * client holding the default timeout, then runs each option on it in
 * argument order. WithBaseURL and WithHTTPClient overwrite a field of the
 * Client; WithTimeout writes the timeout of whichever HTTP client object the
 * Client points to at that moment, so the write is visible through every
 * other reference to that object. Installing a nil HTTP client and then
 * setting a timeout dereferences nil: Go panics, and NewClient returns no
 * client.
 *
 * The effect of a list of options is specified on values: `Fold` gives the
 * Client's fields (or `None` for the panic) and `TimeoutAfter` gives the
 * timeout any one HTTP client object ends up with.
 */
module Config {
  import opened Wrappers

  const DefaultBaseURL: string := "https://api.mistral.ai"

  /** 60 * time.Second, as a time.Duration in nanoseconds. */
  const DefaultTimeout: int := 60_000_000_000

  /** The part of *http.Client the options touch. */
  class HttpClient {
    var timeout: int

    constructor (timeout: int)
      ensures this.timeout == timeout
    {
      this.timeout := timeout;
    }
  }

  /** The three options; a nil *http.Client is `null`. */
  datatype ClientOption =
    | WithBaseURL(url: string)
    | WithHTTPClient(client: HttpClient?)
    | WithTimeout(timeout: int)

  /** The fields of a Client, as a value. */
  datatype Settings = Settings(baseURL: string, apiKey: string, httpClient: HttpClient?)

  /** What NewClient starts from before any option runs (client.go:117-123). */
  function Initial(apiKey: string, http: HttpClient): (s: Settings)
    ensures s.baseURL == DefaultBaseURL && s.apiKey == apiKey && s.httpClient == http
  {
    Settings(DefaultBaseURL, apiKey, http)
  }

  /** One option applied to the fields; `None` when it panics. */
  function Step(s: Settings, opt: ClientOption): (r: Option<Settings>)
    ensures r.None? <==> opt.WithTimeout? && s.httpClient == null
    ensures r.Some? ==> r.value.apiKey == s.apiKey
  {
    match opt
    case WithBaseURL(url) => Some(s.(baseURL := url))
    case WithHTTPClient(h) => Some(s.(httpClient := h))
    case WithTimeout(_) => if s.httpClient == null then None else Some(s)
  }

  /** The timeout `h` holds after one option, given it held `t` before. */
  function TimeoutStep(h: HttpClient, s: Settings, opt: ClientOption, t: int): int {
    if opt.WithTimeout? && s.httpClient == h then opt.timeout else t
  }

  /** The options applied in order; a panic ends the run. */
  function Fold(s: Settings, opts: seq<ClientOption>): Option<Settings>
    decreases |opts|
  {
    if |opts| == 0 then Some(s)
    else
      match Fold(s, opts[..|opts| - 1])
      case None => None
      case Some(f) => Step(f, opts[|opts| - 1])
  }

  /** The timeout `h` holds after the options ran, given it held `t` before. */
  function TimeoutAfter(h: HttpClient, s: Settings, opts: seq<ClientOption>, t: int): int
    decreases |opts|
  {
    if |opts| == 0 then t
    else
      var before := TimeoutAfter(h, s, opts[..|opts| - 1], t);
      match Fold(s, opts[..|opts| - 1])
      case None => before
      case Some(f) => TimeoutStep(h, f, opts[|opts| - 1], before)
  }

  /** The HTTP clients the caller hands in; their timeouts can change. */
  function Handles(opts: seq<ClientOption>): set<HttpClient?> {
    set i | 0 <= i < |opts| && opts[i].WithHTTPClient? :: opts[i].client
  }

  /** The Client (client.go:86-96). */
  class Client {
    var baseURL: string
    var apiKey: string
    var httpClient: HttpClient?

    function View(): Settings
      reads this
    {
      Settings(baseURL, apiKey, httpClient)
    }

    /** The struct literal of NewClient, with the HTTP client it allocated. */
    constructor (apiKey: string, http: HttpClient)
      ensures View() == Initial(apiKey, http)
    {
      baseURL := DefaultBaseURL;
      this.apiKey := apiKey;
      httpClient := http;
    }

    /** WithBaseURL (options.go:31-35): only the base URL changes. */
    method SetBaseURL(url: string)
      modifies this
      ensures baseURL == url
      ensures apiKey == old(apiKey) && httpClient == old(httpClient)
    {
      baseURL := url;
    }

    /**
     * WithHTTPClient (options.go:60-64): the Client now points at `h`; no
     * HTTP client object changes, so `h` keeps its own timeout.
     */
    method SetHTTPClient(h: HttpClient?)
      modifies this
      ensures httpClient == h
      ensures baseURL == old(baseURL) && apiKey == old(apiKey)
    {
      httpClient := h;
    }

    /**
     * WithTimeout (options.go:84-88): writes the timeout of the current HTTP
     * client object and nothing else; `ok` is false for the nil dereference.
     */
    method SetTimeout(t: int) returns (ok: bool)
      modifies httpClient
      ensures ok <==> httpClient != null
      ensures ok ==> httpClient.timeout == t
    {
      if httpClient == null {
        return false;
      }
      httpClient.timeout := t;
      ok := true;
    }

    /** One option run on the Client, as the loop of NewClient does (client.go:125-127). */
    method Apply(opt: ClientOption) returns (ok: bool)
      modifies this, httpClient
      ensures ok ==> Step(old(View()), opt) == Some(View())
      ensures !ok ==> Step(old(View()), opt).None? && View() == old(View())
      ensures old(httpClient) != null ==>
                old(httpClient).timeout == TimeoutStep(old(httpClient), old(View()), opt, old(httpClient.timeout))
    {
      match opt
      case WithBaseURL(url) =>
        SetBaseURL(url);
        ok := true;
      case WithHTTPClient(h) =>
        SetHTTPClient(h);
        ok := true;
      case WithTimeout(t) =>
        ok := SetTimeout(t);
    }
  }

  /**
   * NewClient (client.go:116-130). `c` is null when an option panicked;
   * `dflt` is the HTTP client NewClient allocated itself.
   */
  method NewClient(apiKey: string, opts: seq<ClientOption>) returns (c: Client?, ghost dflt: HttpClient)
    modifies Handles(opts)
    ensures fresh(dflt)
    ensures c == null <==> Fold(Initial(apiKey, dflt), opts).None?
    ensures c != null ==> fresh(c) && Fold(Initial(apiKey, dflt), opts) == Some(c.View())
    ensures dflt.timeout == TimeoutAfter(dflt, Initial(apiKey, dflt), opts, DefaultTimeout)
    ensures forall h | h in Handles(opts) && h != null ::
              h.timeout == TimeoutAfter(h, Initial(apiKey, dflt), opts, old(h.timeout))
  {
    var http := new HttpClient(DefaultTimeout);
    dflt := http;
    var client := new Client(apiKey, http);
    ghost var s0 := Initial(apiKey, http);
    var i := 0;
    while i < |opts|
      invariant 0 <= i <= |opts|
      invariant fresh(client)
      invariant Fold(s0, opts[..i]) == Some(client.View())
      invariant client.httpClient == null || client.httpClient == http || client.httpClient in Handles(opts)
      invariant http.timeout == TimeoutAfter(http, s0, opts[..i], DefaultTimeout)
      invariant forall h | h in Handles(opts) && h != null ::
                  h.timeout == TimeoutAfter(h, s0, opts[..i], old(h.timeout))
    {
      var ok := client.Apply(opts[i]);
      assert opts[..i + 1][..i] == opts[..i];
      if !ok {
        PanicIsFinal(s0, opts, i + 1);
        c := null;
        return;
      }
      i := i + 1;
    }
    assert opts[..i] == opts;
    c := client;
  }

  /** Once an option has panicked, no later option runs and no timeout changes. */
  lemma {:induction false} PanicIsFinal(s: Settings, opts: seq<ClientOption>, k: nat)
    requires k <= |opts| && Fold(s, opts[..k]).None?
    ensures Fold(s, opts).None?
    ensures forall h: HttpClient, t: int {:trigger TimeoutAfter(h, s, opts, t)} ::
              TimeoutAfter(h, s, opts, t) == TimeoutAfter(h, s, opts[..k], t)
    decreases |opts|
  {
    if k == |opts| {
      assert opts[..k] == opts;
    } else {
      var init := opts[..|opts| - 1];
      assert init[..k] == opts[..k];
      PanicIsFinal(s, init, k);
    }
  }

  /** The API key is never touched by an option (options.go:31-88). */
  lemma {:induction false} ApiKeyKept(s: Settings, opts: seq<ClientOption>)
    requires Fold(s, opts).Some?
    ensures Fold(s, opts).value.apiKey == s.apiKey
    decreases |opts|
  {
    if |opts| > 0 {
      ApiKeyKept(s, opts[..|opts| - 1]);
    }
  }

  /** Options that never set the base URL leave it where it started. */
  lemma {:induction false} UnsetBaseURLKept(s: Settings, opts: seq<ClientOption>)
    requires forall j :: 0 <= j < |opts| ==> !opts[j].WithBaseURL?
    requires Fold(s, opts).Some?
    ensures Fold(s, opts).value.baseURL == s.baseURL
    decreases |opts|
  {
    if |opts| > 0 {
      UnsetBaseURLKept(s, opts[..|opts| - 1]);
    }
  }

  /**
   * Options that never install an HTTP client leave the Client on the one it
   * started with: WithBaseURL and WithTimeout do not repoint it (options.go:31-35,
   * options.go:84-88).
   */
  lemma {:induction false} UnsetHTTPClientKept(s: Settings, opts: seq<ClientOption>)
    requires forall j :: 0 <= j < |opts| ==> !opts[j].WithHTTPClient?
    requires Fold(s, opts).Some?
    ensures Fold(s, opts).value.httpClient == s.httpClient
    decreases |opts|
  {
    if |opts| > 0 {
      UnsetHTTPClientKept(s, opts[..|opts| - 1]);
    }
  }

  /** The last WithBaseURL wins (client.go:125-127, options.go:31-35). */
  lemma {:induction false} LastBaseURLWins(s: Settings, opts: seq<ClientOption>, i: nat)
    requires i < |opts| && opts[i].WithBaseURL?
    requires forall j :: i < j < |opts| ==> !opts[j].WithBaseURL?
    requires Fold(s, opts).Some?
    ensures Fold(s, opts).value.baseURL == opts[i].url
    decreases |opts|
  {
    if i < |opts| - 1 {
      LastBaseURLWins(s, opts[..|opts| - 1], i);
    } else {
      assert Fold(s, opts[..|opts| - 1]).Some?;
    }
  }

  /** The last WithHTTPClient wins (client.go:125-127, options.go:60-64). */
  lemma {:induction false} LastHTTPClientWins(s: Settings, opts: seq<ClientOption>, i: nat)
    requires i < |opts| && opts[i].WithHTTPClient?
    requires forall j :: i < j < |opts| ==> !opts[j].WithHTTPClient?
    requires Fold(s, opts).Some?
    ensures Fold(s, opts).value.httpClient == opts[i].client
    decreases |opts|
  {
    if i < |opts| - 1 {
      LastHTTPClientWins(s, opts[..|opts| - 1], i);
    } else {
      assert Fold(s, opts[..|opts| - 1]).Some?;
    }
  }

  /**
   * A WithTimeout writes the object that is current when it runs; with no
   * later WithTimeout that object keeps the value, even if another HTTP
   * client is installed afterwards (options.go:84-88).
   */
  lemma {:induction false} LastTimeoutWins(h: HttpClient, s: Settings, opts: seq<ClientOption>, i: nat, t: int)
    requires i < |opts| && opts[i].WithTimeout?
    requires Fold(s, opts[..i]).Some? && Fold(s, opts[..i]).value.httpClient == h
    requires forall j :: i < j < |opts| ==> !opts[j].WithTimeout?
    ensures TimeoutAfter(h, s, opts, t) == opts[i].timeout
    decreases |opts|
  {
    var init := opts[..|opts| - 1];
    if i < |opts| - 1 {
      assert init[..i] == opts[..i];
      LastTimeoutWins(h, s, init, i, t);
    } else {
      assert init == opts[..i];
    }
  }

  /** Without WithTimeout no HTTP client's timeout changes: installing a client keeps its timeout (options.go:60-64). */
  lemma {:induction false} TimeoutUntouched(h: HttpClient, s: Settings, opts: seq<ClientOption>, t: int)
    requires forall j :: 0 <= j < |opts| ==> !opts[j].WithTimeout?
    ensures TimeoutAfter(h, s, opts, t) == t
    decreases |opts|
  {
    if |opts| > 0 {
      TimeoutUntouched(h, s, opts[..|opts| - 1], t);
    }
  }

  /** Starting from a non-nil HTTP client, only a nil WithHTTPClient can make a later WithTimeout panic. */
  lemma {:induction false} NoNilClientNoPanic(s: Settings, opts: seq<ClientOption>)
    requires s.httpClient != null
    requires forall j :: 0 <= j < |opts| ==> opts[j] != WithHTTPClient(null)
    ensures Fold(s, opts).Some? && Fold(s, opts).value.httpClient != null
    decreases |opts|
  {
    if |opts| > 0 {
      NoNilClientNoPanic(s, opts[..|opts| - 1]);
    }
  }

  /** WithHTTPClient(nil) followed by WithTimeout dereferences nil. */
  lemma NilClientThenTimeoutPanics(s: Settings, t: int)
    ensures Fold(s, [WithHTTPClient(null), WithTimeout(t)]).None?
  {
    assert [WithHTTPClient(null), WithTimeout(t)][..1] == [WithHTTPClient(null)];
    assert [WithHTTPClient(null)][..0] == [];
  }

  /**
   * The chained timeouts of options_test.go:57-68: the second WithTimeout
   * overrides the first on NewClient's own HTTP client.
   */
  lemma OptionChainingExample(apiKey: string, http: HttpClient, t1: int, t2: int, t0: int)
    ensures Fold(Initial(apiKey, http), [WithTimeout(t1), WithTimeout(t2)]) == Some(Initial(apiKey, http))
    ensures TimeoutAfter(http, Initial(apiKey, http), [WithTimeout(t1), WithTimeout(t2)], t0) == t2
  {
    var opts := [WithTimeout(t1), WithTimeout(t2)];
    assert opts[..1] == [WithTimeout(t1)];
    assert opts[..1][..0] == [];
    LastTimeoutWins(http, Initial(apiKey, http), opts, 1, t0);
  }

  /**
   * options_test.go:70-84: after WithHTTPClient(h) and WithTimeout(t) the
   * Client points at h and h's own timeout is t.
   */
  lemma HTTPClientThenTimeoutExample(s: Settings, h: HttpClient, t: int, t0: int)
    ensures Fold(s, [WithHTTPClient(h), WithTimeout(t)]) == Some(s.(httpClient := h))
    ensures TimeoutAfter(h, s, [WithHTTPClient(h), WithTimeout(t)], t0) == t
  {
    var opts := [WithHTTPClient(h), WithTimeout(t)];
    assert opts[..1] == [WithHTTPClient(h)];
    assert opts[..1][..0] == [];
    LastTimeoutWins(h, s, opts, 1, t0);
  }

  /**
   * The write goes to the object, not to the Client: a timeout set on `a`
   * stays on `a` after the Client moves on to `b`, and `b` keeps its own.
   */
  lemma SharedClientAliasing(s: Settings, a: HttpClient, b: HttpClient, t: int, ta: int, tb: int)
    requires a != b
    ensures Fold(s, [WithHTTPClient(a), WithTimeout(t), WithHTTPClient(b)]) == Some(s.(httpClient := b))
    ensures TimeoutAfter(a, s, [WithHTTPClient(a), WithTimeout(t), WithHTTPClient(b)], ta) == t
    ensures TimeoutAfter(b, s, [WithHTTPClient(a), WithTimeout(t), WithHTTPClient(b)], tb) == tb
  {
    var opts := [WithHTTPClient(a), WithTimeout(t), WithHTTPClient(b)];
    assert opts[..2] == [WithHTTPClient(a), WithTimeout(t)];
    assert opts[..2][..1] == [WithHTTPClient(a)];
    assert opts[..2][..1][..0] == [];
    LastTimeoutWins(a, s, opts, 1, ta);
    assert Fold(s, opts[..2][..1]) == Some(s.(httpClient := a));
    assert TimeoutAfter(b, s, opts[..2][..1], tb) == tb;
    assert TimeoutAfter(b, s, opts[..2], tb) == tb;
  }

  /**
   * NewClient with the caller's HTTP client and a timeout: the caller's own
   * object is the one whose timeout changes.
   */
  method NewClientWithTimeout(apiKey: string, h: HttpClient, t: int) returns (c: Client)
    modifies h
    ensures c.httpClient == h && h.timeout == t
    ensures c.baseURL == DefaultBaseURL && c.apiKey == apiKey
  {
    var opts := [WithHTTPClient(h), WithTimeout(t)];
    assert opts[0].client == h;
    assert Handles(opts) == {h};
    var made, dflt := NewClient(apiKey, opts);
    HTTPClientThenTimeoutExample(Initial(apiKey, dflt), h, t, old(h.timeout));
    c := made;
  }
}
