/**
  The React context that tells the rest of the frontend which backend to
  talk to. On mount, and every 30 seconds after, it runs the fallback health
  check and records the outcome.
 */
module ApiContext {
  import opened Wrappers
  import opened ServerStatus

  /** `serverStatus`: "checking", "online" or "offline". */
  datatype ServerState = Checking | ServerOnline | ServerOffline

  /** The provider's four pieces of state. */
  datatype ProviderState = ProviderState(activeApiUrl: string, isLoading: bool, serverStatus: ServerState,
                                         usingFallback: bool)

  /** How the awaited `checkServerHealth` call settled: resolved over the outcomes `probe` gives, or rejected. */
  datatype Settled = Resolved(probe: (string, nat) -> HttpOutcome) | Rejected

  /** The state before the first check completes. */
  function Initial(primaryApiUrl: string): ProviderState
  {
    ProviderState(primaryApiUrl, true, Checking, false)
  }

  /**
    One run of `checkServer`. Afterwards loading is over and the status is
    known. An online result switches the active URL to the server that
    answered; an offline result or a rejection only records "offline" and
    keeps the URL and fallback flag of the last successful check.
   */
  function AfterCheck(s: ProviderState, primaryApiUrl: string, productionApiUrl: Option<string>,
                      settled: Settled): (t: ProviderState)
    ensures !t.isLoading && t.serverStatus != Checking
    ensures t.serverStatus == ServerOnline <==>
      settled.Resolved? && CheckServerHealth(primaryApiUrl, productionApiUrl, settled.probe).result.status == Online
    ensures t.serverStatus == ServerOnline ==>
      var r := CheckServerHealth(primaryApiUrl, productionApiUrl, settled.probe).result;
      t.activeApiUrl == r.url && (t.usingFallback <==> r.isFallback == Some(true))
    ensures t.serverStatus == ServerOffline ==>
      t.activeApiUrl == s.activeApiUrl && t.usingFallback == s.usingFallback
  {
    match settled
    case Rejected => s.(serverStatus := ServerOffline, isLoading := false)
    case Resolved(probe) =>
      var status := CheckServerHealth(primaryApiUrl, productionApiUrl, probe).result;
      if status.status == Online then
        ProviderState(status.url, false, ServerOnline, status.isFallback == Some(true))
      else
        s.(serverStatus := ServerOffline, isLoading := false)
  }

  /** The active URL is the production URL when the fallback is in use, and the primary URL otherwise. */
  predicate Consistent(s: ProviderState, primaryApiUrl: string, productionApiUrl: Option<string>)
  {
    if s.usingFallback then Truthy(productionApiUrl) && s.activeApiUrl == productionApiUrl.value
    else s.activeApiUrl == primaryApiUrl
  }

  lemma AfterCheckConsistent(s: ProviderState, primaryApiUrl: string, productionApiUrl: Option<string>,
                             settled: Settled)
    requires Consistent(s, primaryApiUrl, productionApiUrl)
    ensures Consistent(AfterCheck(s, primaryApiUrl, productionApiUrl, settled), primaryApiUrl, productionApiUrl)
  {
    if settled.Resolved? {
      OnlineUrl(primaryApiUrl, productionApiUrl, settled.probe);
    }
  }

  /** The state after the initial check and the periodic ones, in the order they settled. */
  function AfterChecks(primaryApiUrl: string, productionApiUrl: Option<string>, checks: seq<Settled>): (s: ProviderState)
    ensures |checks| == 0 ==> s == Initial(primaryApiUrl)
    ensures |checks| > 0 ==> !s.isLoading && s.serverStatus != Checking
    ensures |checks| > 0 ==>
      var last := checks[|checks| - 1];
      (s.serverStatus == ServerOnline <==>
         last.Resolved? && CheckServerHealth(primaryApiUrl, productionApiUrl, last.probe).result.status == Online)
  {
    if |checks| == 0 then Initial(primaryApiUrl)
    else AfterCheck(AfterChecks(primaryApiUrl, productionApiUrl, checks[..|checks| - 1]),
                    primaryApiUrl, productionApiUrl, checks[|checks| - 1])
  }

  /**
    However many checks have settled, the active URL agrees with the
    fallback flag, and once one check has settled the provider is no longer
    loading.
   */
  lemma {:induction false} AfterChecksConsistent(primaryApiUrl: string, productionApiUrl: Option<string>,
                                                checks: seq<Settled>)
    ensures Consistent(AfterChecks(primaryApiUrl, productionApiUrl, checks), primaryApiUrl, productionApiUrl)
    ensures |checks| > 0 ==> !AfterChecks(primaryApiUrl, productionApiUrl, checks).isLoading
  {
    if |checks| > 0 {
      AfterChecksConsistent(primaryApiUrl, productionApiUrl, checks[..|checks| - 1]);
      AfterCheckConsistent(AfterChecks(primaryApiUrl, productionApiUrl, checks[..|checks| - 1]),
                           primaryApiUrl, productionApiUrl, checks[|checks| - 1]);
    }
  }

  class ApiProvider {
    const primaryApiUrl: string
    const productionApiUrl: Option<string>
    var activeApiUrl: string
    var isLoading: bool
    var serverStatus: ServerState
    var usingFallback: bool

    function State(): ProviderState
      reads this
    {
      ProviderState(activeApiUrl, isLoading, serverStatus, usingFallback)
    }

    ghost predicate Valid()
      reads this
    {
      Consistent(State(), primaryApiUrl, productionApiUrl)
    }

    /** The `useState` initial values: the primary URL, loading, "checking", no fallback. */
    constructor (primaryApiUrl: string, productionApiUrl: Option<string>)
      ensures this.primaryApiUrl == primaryApiUrl && this.productionApiUrl == productionApiUrl
      ensures State() == Initial(primaryApiUrl)
      ensures Valid()
    {
      this.primaryApiUrl := primaryApiUrl;
      this.productionApiUrl := productionApiUrl;
      activeApiUrl := primaryApiUrl;
      isLoading := true;
      serverStatus := Checking;
      usingFallback := false;
    }

    /** `checkServer`: record the outcome of one fallback health check, then stop loading. */
    method CheckServer(settled: Settled)
      requires Valid()
      modifies this
      ensures State() == AfterCheck(old(State()), primaryApiUrl, productionApiUrl, settled)
      ensures Valid()
    {
      match settled {
        case Rejected =>
          serverStatus := ServerOffline;
        case Resolved(probe) =>
          var status := CheckServerHealth(primaryApiUrl, productionApiUrl, probe).result;
          if status.status == Online {
            activeApiUrl := status.url;
            usingFallback := status.isFallback == Some(true);
            serverStatus := ServerOnline;
          } else {
            serverStatus := ServerOffline;
          }
      }
      isLoading := false;
      AfterCheckConsistent(old(State()), primaryApiUrl, productionApiUrl, settled);
    }
  }
}
