/**
 * The client-side custom-domain panel (components/admin/domain-management.tsx):
 * the component's state as a class whose handlers update it once the remote
 * call they make has answered, and the pure helpers that turn that state
 * into what is shown. The answers of the remote calls are parameters.
 */
module CustomDomain {
  import opened Wrappers
  import opened JsString

  const Active := "active"
  const Pending := "pending"
  const DnsConfigured := "dns_configured"
  const VercelPending := "vercel_pending"
  const SslPending := "ssl_pending"
  const ErrorStatus := "error"

  /** The six status strings the panel recognises. */
  const KnownStatuses: seq<string> := [Active, Pending, DnsConfigured, VercelPending, SslPending, ErrorStatus]

  /** The record returned by the domain endpoint. */
  datatype DomainStatus = DomainStatus(domain: Option<string>, status: Option<string>,
                                       verifiedAt: Option<string>, hasActivePro: bool,
                                       errorMessage: Option<string>)

  /** How a request to add or remove the domain ended: `response.ok`, a
      response that is not ok, or an exception (network or JSON parse). A
      not-ok add whose `error` makes `data.error?.includes(...)` throw ends
      in the catch, which changes no more state than `NotOk` does. */
  datatype Reply = Ok | NotOk | Threw

  /** How the status fetch ended. */
  datatype StatusReply = Loaded(data: DomainStatus) | LoadFailed | LoadThrew

  /** How a verification request ended: the response says `verified`
      (whatever its HTTP status), it does not, or an exception. For a reply
      that is not verified, `errorThrows` says that its `error` field is
      present but has no `includes` method (it is neither a string nor an
      array), so that `data.error?.includes(...)` throws after the retry
      count was raised, and the catch raises it once more. */
  datatype VerifyReply = Verified | NotVerified(errorThrows: bool) | VerifyThrew

  datatype Summary = Summary(errors: int, warnings: int)

  /** How a diagnostics request ended. */
  datatype DiagnosticsReply = Diagnosed(summary: Summary) | DiagnosticsFailed | DiagnosticsThrew

  /** The notice a diagnostics run leads to. */
  datatype DiagnosticsNotice = FoundErrors | FoundWarnings | AllPassed | CouldNotRun

  datatype Tone = Green | Yellow | Blue | Orange | Red
  datatype Badge = Badge(caption: string, tone: Tone)

  /** The retry feedback under the verify button. */
  datatype RetryNotice = AttemptOf(attempt: nat, outOf: nat) | MultipleAttemptsFailed

  /** The verification block shown while the domain is not active. */
  datatype Instructions = Instructions(text: string, showDnsRecords: bool, verifyEnabled: bool,
                                       verifyLabel: string, showDiagnosticsRetry: bool,
                                       retry: Option<RetryNotice>)

  /** The current-domain view: the domain with its badge, whether the
      verification date is shown, the error message if any, the open-site
      link, whether the diagnostics and remove buttons are enabled, and the
      verification block. */
  datatype DomainPanel = DomainPanel(domain: string, badge: Option<Badge>, showVerifiedAt: bool,
                                     errorMessage: Option<string>,
                                     showOpenLink: bool, actionsEnabled: bool,
                                     instructions: Option<Instructions>)

  /** What the component renders. */
  datatype View =
    | Skeleton
    | UpgradeNotice
    | CurrentDomain(panel: DomainPanel)
    | AddForm(addEnabled: bool, addLabel: string)

  /** The number of attempts the retry message counts towards. */
  const RetryHintLimit: nat := 3

  /** `domainStatus?.domain` when it is truthy: present and not empty. */
  function DomainOf(ds: Option<DomainStatus>): (d: Option<string>)
    ensures d.Some? <==> ds.Some? && ds.value.domain.Some? && ds.value.domain.value != ""
    ensures d.Some? ==> d == ds.value.domain
  {
    if ds.Some? then Truthy(ds.value.domain) else None
  }

  /** `domainStatus?.status`, `None` when there is no record. */
  function StatusOf(ds: Option<DomainStatus>): (status: Option<string>)
    ensures ds.None? ==> status.None?
    ensures ds.Some? ==> status == ds.value.status
  {
    if ds.Some? then ds.value.status else None
  }

  /** `getStatusBadge`: each known status has its own badge; any other
      status, `null` included, has none. */
  function StatusBadge(status: Option<string>): (b: Option<Badge>)
    ensures b.Some? <==> status.Some? && status.value in KnownStatuses
  {
    if status == Some(Active) then Some(Badge("Active", Green))
    else if status == Some(Pending) then Some(Badge("Pending DNS Setup", Yellow))
    else if status == Some(DnsConfigured) then Some(Badge("DNS Configured", Blue))
    else if status == Some(VercelPending) then Some(Badge("Setting up Vercel", Blue))
    else if status == Some(SslPending) then Some(Badge("SSL Pending", Orange))
    else if status == Some(ErrorStatus) then Some(Badge("Error", Red))
    else None
  }

  /** Different known statuses never share a badge label. */
  lemma StatusBadgeInjective(s: string, t: string)
    requires s in KnownStatuses && t in KnownStatuses && s != t
    ensures StatusBadge(Some(s)).value.caption != StatusBadge(Some(t)).value.caption
  {
  }

  /** `getRetryMessage`: nothing before the first failed attempt, the
      attempt number out of three for one or two, a stronger warning from
      the third on. */
  function RetryMessage(retryCount: nat): (m: Option<RetryNotice>)
    ensures m.None? <==> retryCount == 0
    ensures m.Some? && m.value.AttemptOf? <==> 1 <= retryCount < RetryHintLimit
    ensures m.Some? && m.value.AttemptOf? ==> m.value == AttemptOf(retryCount, RetryHintLimit)
    ensures m == Some(MultipleAttemptsFailed) <==> retryCount >= RetryHintLimit
  {
    if retryCount == 0 then None
    else if retryCount < RetryHintLimit then Some(AttemptOf(retryCount, RetryHintLimit))
    else Some(MultipleAttemptsFailed)
  }

  /** One more failed attempt never lowers the tier: the message appears,
      the attempt number goes up by one or the warning is reached, and the
      warning stays. */
  lemma RetryMessageAfterFailure(n: nat)
    ensures RetryMessage(n + 1).Some?
    ensures RetryMessage(n) == Some(MultipleAttemptsFailed) ==> RetryMessage(n + 1) == Some(MultipleAttemptsFailed)
    ensures RetryMessage(n + 1).value.AttemptOf? ==> RetryMessage(n + 1).value.attempt == n + 1
  {
  }

  /** The verify button is enabled exactly when nothing is loading and the
      status is one a verification can move forward. */
  predicate VerifyEnabled(isLoading: bool, status: Option<string>)
    ensures VerifyEnabled(isLoading, status) <==>
      !isLoading && status in {Some(Pending), Some(ErrorStatus), Some(SslPending)}
    ensures VerifyEnabled(isLoading, status) ==>
      StatusBadge(status).Some? && status != Some(Active) && InstructionText(status) != ""
  {
    !isLoading && (status == Some(Pending) || status == Some(ErrorStatus) || status == Some(SslPending))
  }

  /** The verify button's label, by priority: loading, then SSL pending,
      DNS configured, platform pending, and the default. */
  function VerifyLabel(isLoading: bool, status: Option<string>): (text: string)
    ensures isLoading ==> text == "Checking..."
    ensures !isLoading && status == Some(SslPending) ==> text == "Check SSL Status"
    ensures !isLoading && status == Some(DnsConfigured) ==> text == "Configuring..."
    ensures !isLoading && status == Some(VercelPending) ==> text == "Setting up..."
    ensures !isLoading && status !in {Some(SslPending), Some(DnsConfigured), Some(VercelPending)}
            ==> text == "Verify Domain"
  {
    if isLoading then "Checking..."
    else if status == Some(SslPending) then "Check SSL Status"
    else if status == Some(DnsConfigured) then "Configuring..."
    else if status == Some(VercelPending) then "Setting up..."
    else "Verify Domain"
  }

  /** An enabled verify button reads "Verify Domain" or "Check SSL Status";
      the progress labels only ever appear on a disabled button. */
  lemma VerifyLabelOfEnabledButton(isLoading: bool, status: Option<string>)
    ensures VerifyEnabled(isLoading, status) ==>
      VerifyLabel(isLoading, status) in {"Verify Domain", "Check SSL Status"}
    ensures VerifyLabel(isLoading, status) in {"Checking...", "Configuring...", "Setting up..."} ==>
      !VerifyEnabled(isLoading, status)
  {
  }

  /** The instruction sentence for each not-yet-active status; other
      statuses get an empty alert. */
  function InstructionText(status: Option<string>): (text: string)
    ensures text != "" <==>
      status in {Some(Pending), Some(DnsConfigured), Some(VercelPending), Some(SslPending), Some(ErrorStatus)}
  {
    if status == Some(Pending) then "To activate your custom domain, please configure your DNS settings:"
    else if status == Some(DnsConfigured) then "DNS is configured! Setting up your domain with Vercel..."
    else if status == Some(VercelPending) then "Domain added to Vercel. Configuring SSL certificate..."
    else if status == Some(SslPending) then "SSL certificate is being provisioned. This may take a few minutes."
    else if status == Some(ErrorStatus) then
      "There was an error configuring your domain. Please check the error message above and try again."
    else ""
  }

  /** The view the component renders, by priority: the skeleton while the
      status loads, the upgrade notice without Pro, the current domain when
      there is one, and otherwise the add form. */
  function SelectView(isLoadingStatus: bool, ds: Option<DomainStatus>, isLoading: bool, retryCount: nat): (v: View)
    ensures isLoadingStatus <==> v == Skeleton
    ensures v == UpgradeNotice <==> !isLoadingStatus && !(ds.Some? && ds.value.hasActivePro)
    ensures v.CurrentDomain? <==>
      !isLoadingStatus && ds.Some? && ds.value.hasActivePro && DomainOf(ds).Some?
    ensures v.CurrentDomain? ==>
      var p := v.panel;
      && p.domain == DomainOf(ds).value
      && p.badge == StatusBadge(StatusOf(ds))
      && (p.showVerifiedAt <==> Truthy(ds.value.verifiedAt).Some?)
      && p.errorMessage == Truthy(ds.value.errorMessage)
      && (p.showOpenLink <==> StatusOf(ds) == Some(Active))
      && (p.instructions.Some? <==> StatusOf(ds) != Some(Active))
      && (p.actionsEnabled <==> !isLoading)
    ensures v.CurrentDomain? && v.panel.instructions.Some? ==>
      var i := v.panel.instructions.value;
      && (i.showDnsRecords <==> StatusOf(ds) in {Some(Pending), Some(ErrorStatus)})
      && (i.verifyEnabled <==> VerifyEnabled(isLoading, StatusOf(ds)))
      && i.verifyLabel == VerifyLabel(isLoading, StatusOf(ds))
      && i.retry == RetryMessage(retryCount)
    ensures v.AddForm? ==> (v.addEnabled <==> !isLoading)
  {
    if isLoadingStatus then Skeleton
    else if ds.None? || !ds.value.hasActivePro then UpgradeNotice
    else if DomainOf(ds).Some? then
      var status := ds.value.status;
      var instructions :=
        if status != Some(Active) then
          Some(Instructions(InstructionText(status),
                            status == Some(Pending) || status == Some(ErrorStatus),
                            VerifyEnabled(isLoading, status),
                            VerifyLabel(isLoading, status),
                            retryCount > 0,
                            RetryMessage(retryCount)))
        else None;
      CurrentDomain(DomainPanel(DomainOf(ds).value, StatusBadge(status),
                                Truthy(ds.value.verifiedAt).Some?, Truthy(ds.value.errorMessage),
                                status == Some(Active), !isLoading, instructions))
    else
      AddForm(!isLoading, if isLoading then "Adding..." else "Add Domain")
  }

  /** In the current-domain view exactly one of the open-site link and the
      verification block is shown; the DNS records appear only with an
      enabled verify button unless a request is in flight; and the extra
      diagnostics button appears together with the retry message. */
  lemma CurrentDomainPanelConsistent(isLoadingStatus: bool, ds: Option<DomainStatus>, isLoading: bool, retryCount: nat)
    requires SelectView(isLoadingStatus, ds, isLoading, retryCount).CurrentDomain?
    ensures var p := SelectView(isLoadingStatus, ds, isLoading, retryCount).panel;
      p.showOpenLink != p.instructions.Some?
    ensures var p := SelectView(isLoadingStatus, ds, isLoading, retryCount).panel;
      p.instructions.Some? && p.instructions.value.showDnsRecords && !isLoading ==>
        p.instructions.value.verifyEnabled
    ensures var p := SelectView(isLoadingStatus, ds, isLoading, retryCount).panel;
      p.instructions.Some? ==> (p.instructions.value.showDiagnosticsRetry <==> p.instructions.value.retry.Some?)
  {
  }

  /** How the diagnostics summary is reported: errors first, then warnings,
      otherwise success. */
  function ClassifyDiagnostics(reply: DiagnosticsReply): (n: DiagnosticsNotice)
    ensures n == CouldNotRun <==> !reply.Diagnosed?
    ensures n == FoundErrors <==> reply.Diagnosed? && reply.summary.errors > 0
    ensures n == FoundWarnings <==> reply.Diagnosed? && reply.summary.errors <= 0 && reply.summary.warnings > 0
    ensures n == AllPassed <==> reply.Diagnosed? && reply.summary.errors <= 0 && reply.summary.warnings <= 0
  {
    match reply
    case Diagnosed(s) =>
      if s.errors > 0 then FoundErrors else if s.warnings > 0 then FoundWarnings else AllPassed
    case _ => CouldNotRun
  }

  /** The `DomainManagement` component's state. */
  class DomainManagement {
    var domainStatus: Option<DomainStatus>
    var newDomain: string
    var isLoading: bool
    var isLoadingStatus: bool
    var retryCount: nat

    /** The first render: no record yet, an empty input, the status loading. */
    constructor ()
      ensures domainStatus == None && newDomain == "" && !isLoading && isLoadingStatus && retryCount == 0
    {
      domainStatus := None;
      newDomain := "";
      isLoading := false;
      isLoadingStatus := true;
      retryCount := 0;
    }

    /** What the component currently renders. */
    function View(): (v: View)
      reads this
      ensures isLoadingStatus <==> v == Skeleton
      ensures v.CurrentDomain? ==> DomainOf(domainStatus).Some? && v.panel.domain == DomainOf(domainStatus).value
    {
      SelectView(isLoadingStatus, domainStatus, isLoading, retryCount)
    }

    /** The input's `onChange`. */
    method EditDomainInput(text: string)
      modifies this`newDomain
      ensures newDomain == text
    {
      newDomain := text;
    }

    /** `fetchDomainStatus`: a successful fetch replaces the record, a failed
        one keeps the old record; either way loading ends. */
    method FetchDomainStatus(reply: StatusReply)
      modifies this`domainStatus, this`isLoadingStatus
      ensures !isLoadingStatus
      ensures domainStatus == if reply.Loaded? then Some(reply.data) else old(domainStatus)
    {
      isLoadingStatus := true;
      if reply.Loaded? {
        domainStatus := Some(reply.data);
      }
      isLoadingStatus := false;
    }

    /** `addDomain`: a blank input sends nothing and changes nothing;
        otherwise the trimmed input is sent, and on success the input is
        cleared, the retry count reset and the record fetched again. */
    method AddDomain(reply: Reply, refresh: StatusReply) returns (sent: Option<string>)
      modifies this
      ensures sent == if IsBlank(old(newDomain)) then None else Some(Trim(old(newDomain)))
      ensures sent.None? ==> unchanged(this)
      ensures sent.Some? ==>
        && !isLoading
        && newDomain == (if reply.Ok? then "" else old(newDomain))
        && retryCount == (if reply.Ok? then 0 else old(retryCount))
        && domainStatus == (if reply.Ok? && refresh.Loaded? then Some(refresh.data) else old(domainStatus))
        && isLoadingStatus == (if reply.Ok? then false else old(isLoadingStatus))
    {
      var domain := Trim(newDomain);
      if domain == "" {
        return None;
      }
      sent := Some(domain);
      isLoading := true;
      if reply.Ok? {
        newDomain := "";
        retryCount := 0;
        FetchDomainStatus(refresh);
      }
      isLoading := false;
    }

    /** `removeDomain`: on success the retry count is reset and the record
        fetched again; the input is never touched. */
    method RemoveDomain(reply: Reply, refresh: StatusReply)
      modifies this
      ensures !isLoading && newDomain == old(newDomain)
      ensures retryCount == if reply.Ok? then 0 else old(retryCount)
      ensures domainStatus == if reply.Ok? && refresh.Loaded? then Some(refresh.data) else old(domainStatus)
      ensures isLoadingStatus == if reply.Ok? then false else old(isLoadingStatus)
    {
      isLoading := true;
      if reply.Ok? {
        retryCount := 0;
        FetchDomainStatus(refresh);
      }
      isLoading := false;
    }

    /** `verifyDomain`: without a current domain nothing happens; otherwise
        that domain is sent, success resets the retry count and fetches the
        record again, and a failure or an exception adds one; a failure whose
        `error` field makes the follow-up check throw adds two. */
    method VerifyDomain(reply: VerifyReply, refresh: StatusReply) returns (sent: Option<string>)
      modifies this
      ensures sent == DomainOf(old(domainStatus))
      ensures sent.None? ==> unchanged(this)
      ensures sent.Some? ==>
        && !isLoading && newDomain == old(newDomain)
        && retryCount == (if reply.Verified? then 0
                          else if reply.NotVerified? && reply.errorThrows then old(retryCount) + 2
                          else old(retryCount) + 1)
        && domainStatus == (if reply.Verified? && refresh.Loaded? then Some(refresh.data) else old(domainStatus))
        && isLoadingStatus == (if reply.Verified? then false else old(isLoadingStatus))
      ensures sent.Some? && !reply.Verified? ==> RetryMessage(retryCount).Some?
    {
      sent := DomainOf(domainStatus);
      if sent.None? {
        return;
      }
      isLoading := true;
      if reply.Verified? {
        retryCount := 0;
        FetchDomainStatus(refresh);
      } else {
        retryCount := retryCount + 1;
        if reply.NotVerified? && reply.errorThrows {
          retryCount := retryCount + 1;
        }
      }
      isLoading := false;
    }

    /** `runDiagnostics`: without a current domain nothing happens;
        otherwise the domain is sent and the summary classified. Only the
        loading flag changes. */
    method RunDiagnostics(reply: DiagnosticsReply) returns (sent: Option<string>, notice: Option<DiagnosticsNotice>)
      modifies this`isLoading
      ensures sent == DomainOf(domainStatus)
      ensures sent.None? ==> notice.None? && isLoading == old(isLoading)
      ensures sent.Some? ==> !isLoading && notice == Some(ClassifyDiagnostics(reply))
    {
      sent := DomainOf(domainStatus);
      if sent.None? {
        return sent, None;
      }
      isLoading := true;
      notice := Some(ClassifyDiagnostics(reply));
      isLoading := false;
    }
  }
}
