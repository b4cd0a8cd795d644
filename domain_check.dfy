/**
 * The record classification engine of the worker: one DNS TXT lookup per
 * mechanism, reduced to an optional record string, then classified by SPF,
 * DKIM and DMARC rules, and assembled into the handler's JSON response.
 */
module DomainCheck {

  import opened Wrappers
  import opened JsString

  // ---------------------------------------------------------------------
  // The DNS-over-HTTPS resolver, as an oracle
  // ---------------------------------------------------------------------

  /** One entry of the JSON `Answer` array; `data` is absent when the entry lacks it. */
  datatype AnswerEntry = AnswerEntry(data: Option<string>)

  /**
   * What the resolver hands back: a non-ok HTTP response, or an ok one whose
   * JSON body may or may not carry an `Answer` array.
   */
  datatype DnsResponse =
    | NotOk
    | OkBody(answer: Option<seq<AnswerEntry>>)

  /** A query as sent to the resolver: the `name` and `type` URL parameters. */
  datatype Lookup = Lookup(name: string, rrType: string)

  /** The resolver itself: every query gets some response. */
  type Resolver = Lookup -> DnsResponse

  /** The first `Answer` entry carries a non-empty `data` string. */
  predicate HasFirstData(resp: DnsResponse)
  {
    && resp.OkBody?
    && resp.answer.Some?
    && |resp.answer.value| > 0
    && resp.answer.value[0].data.Some?
    && resp.answer.value[0].data.value != ""
  }

  /**
   * `data.Answer?.[0]?.data || null` after an ok check: the first answer's
   * `data`, with every missing piece and the falsy empty string collapsing to `null`.
   */
  function SelectRecord(resp: DnsResponse): (r: Option<string>)
    ensures r.Some? <==> HasFirstData(resp)
    ensures r.Some? ==> r.value == resp.answer.value[0].data.value && r.value != ""
  {
    if !resp.OkBody? then None
    else match resp.answer
      case None => None
      case Some(entries) =>
        if |entries| == 0 then None
        else match entries[0].data
          case None => None
          case Some(d) => if d == "" then None else Some(d)
  }

  /** `queryDNS(name, type)`: one resolver round trip, reduced to an optional record. */
  function QueryDns(resolve: Resolver, q: Lookup): (r: Option<string>)
    ensures r.Some? <==> HasFirstData(resolve(q))
    ensures r.Some? ==> r.value == resolve(q).answer.value[0].data.value && r.value != ""
  {
    SelectRecord(resolve(q))
  }

  // ---------------------------------------------------------------------
  // Results
  // ---------------------------------------------------------------------

  datatype Status = Pass | Fail | Warning

  /** One mechanism's verdict; `record` is `null` when no record was found. */
  datatype RecordResult = RecordResult(status: Status, record: Option<string>, recommendation: string)

  const NoSpfMessage := "No SPF record found."
  const NoDkimMessage := "No DKIM record found."
  const NoDmarcMessage := "No DMARC record found."

  /** `!record`: the record is `null` or the empty string. */
  predicate Missing(record: Option<string>)
  {
    record.None? || record.value == ""
  }

  /**
   * What every validator promises about its result: a non-null record is the
   * looked-up string unchanged, the record is `null` exactly when none was found
   * and exactly when the verdict is the "not found" failure, and a pass always
   * carries a record.
   */
  predicate Coherent(res: RecordResult, record: Option<string>, notFound: string)
  {
    && (res.record.Some? ==> res.record == record)
    && (res.record.None? <==> Missing(record))
    && (res.record.None? <==> (res.status == Fail && res.recommendation == notFound))
    && (res.status == Pass ==> res.record.Some?)
  }

  // ---------------------------------------------------------------------
  // Classifiers (the branch logic of the three validators)
  // ---------------------------------------------------------------------

  function ClassifySpf(record: Option<string>): (res: RecordResult)
    ensures Coherent(res, record, NoSpfMessage)
    ensures res.status != Warning
    ensures res.status == Pass <==> !Missing(record) && StartsWith(record.value, "v=spf1")
    ensures res.status == Fail && !Missing(record) ==> res.recommendation == "Invalid SPF record format."
    ensures res.status == Pass ==> res.recommendation == "SPF record looks good!"
  {
    if Missing(record) then RecordResult(Fail, None, NoSpfMessage)
    else
      var r := record.value;
      if !StartsWith(r, "v=spf1") then RecordResult(Fail, record, "Invalid SPF record format.")
      else RecordResult(Pass, record, "SPF record looks good!")
  }

  function ClassifyDkim(record: Option<string>): (res: RecordResult)
    ensures Coherent(res, record, NoDkimMessage)
    ensures res.status == Fail <==> Missing(record)
    ensures res.status == Pass <==>
              !Missing(record) && ((exists i :: OccursAt(record.value, "k=rsa", i)) || (exists i :: OccursAt(record.value, "k=ed25519", i)))
    ensures res.status == Warning ==> res.recommendation == "Check DKIM key format."
    ensures res.status == Pass ==> res.recommendation == "DKIM record looks good!"
  {
    if Missing(record) then RecordResult(Fail, None, NoDkimMessage)
    else
      var r := record.value;
      if !Includes(r, "k=rsa") && !Includes(r, "k=ed25519") then RecordResult(Warning, record, "Check DKIM key format.")
      else RecordResult(Pass, record, "DKIM record looks good!")
  }

  function ClassifyDmarc(record: Option<string>): (res: RecordResult)
    ensures Coherent(res, record, NoDmarcMessage)
    ensures res.status != Warning
    ensures res.status == Pass <==> !Missing(record) && exists i :: OccursAt(record.value, "p=", i)
    ensures res.status == Fail && !Missing(record) ==> res.recommendation == "Invalid DMARC record format."
    ensures res.status == Pass ==> res.recommendation == "DMARC record looks good!"
  {
    if Missing(record) then RecordResult(Fail, None, NoDmarcMessage)
    else
      var r := record.value;
      if !Includes(r, "p=") then RecordResult(Fail, record, "Invalid DMARC record format.")
      else RecordResult(Pass, record, "DMARC record looks good!")
  }

  // ---------------------------------------------------------------------
  // Validators: lookup, then classify
  // ---------------------------------------------------------------------

  /** SPF queries TXT at the bare domain. */
  function SpfLookup(domain: string): Lookup { Lookup(domain, "TXT") }

  /** DKIM also queries TXT at the bare domain: no selector, no `_domainkey` label. */
  function DkimLookup(domain: string): (q: Lookup)
    ensures q == SpfLookup(domain)
  {
    Lookup(domain, "TXT")
  }

  /** DMARC queries TXT at `_dmarc.<domain>`. */
  function DmarcLookup(domain: string): Lookup { Lookup("_dmarc." + domain, "TXT") }

  /** `validateSPF`: the verdict's record is the lookup's result, unchanged. */
  function ValidateSpf(resolve: Resolver, domain: string): (res: RecordResult)
    ensures var rec := QueryDns(resolve, SpfLookup(domain));
              && res.record == rec
              && (res.status == Pass <==> rec.Some? && StartsWith(rec.value, "v=spf1"))
  {
    ClassifySpf(QueryDns(resolve, SpfLookup(domain)))
  }

  /** `validateDKIM`: a present record never fails. */
  function ValidateDkim(resolve: Resolver, domain: string): (res: RecordResult)
    ensures var rec := QueryDns(resolve, DkimLookup(domain));
              && res.record == rec
              && (res.status == Fail <==> rec.None?)
  {
    ClassifyDkim(QueryDns(resolve, DkimLookup(domain)))
  }

  /** `validateDMARC`: any record containing `p=` passes. */
  function ValidateDmarc(resolve: Resolver, domain: string): (res: RecordResult)
    ensures var rec := QueryDns(resolve, DmarcLookup(domain));
              && res.record == rec
              && (res.status == Pass <==> rec.Some? && Includes(rec.value, "p="))
  {
    ClassifyDmarc(QueryDns(resolve, DmarcLookup(domain)))
  }

  // ---------------------------------------------------------------------
  // The handler
  // ---------------------------------------------------------------------

  /** The JSON body of a response: an error, or the four-field check result. */
  datatype Body =
    | ErrorBody(error: string)
    | CheckResult(domain: string, spf: RecordResult, dkim: RecordResult, dmarc: RecordResult)

  datatype HttpResponse = HttpResponse(status: nat, body: Body)

  /** `!domain || typeof domain !== "string"` is false. */
  predicate ValidDomain(v: JsValue)
  {
    Truthy(v) && v.JsStr?
  }

  /** The resolver queries the handler issues for a given `domain` value, in order. */
  function Lookups(v: JsValue): seq<Lookup>
  {
    if ValidDomain(v) then [SpfLookup(v.s), DkimLookup(v.s), DmarcLookup(v.s)] else []
  }

  /** `checkDomainHandler`, given the `domain` property of the request body. */
  function CheckDomain(resolve: Resolver, v: JsValue): (resp: HttpResponse)
    ensures !(v.JsStr? && v.s != "") <==> resp == HttpResponse(400, ErrorBody("Invalid domain"))
    ensures resp.status == 200 <==> v.JsStr? && v.s != ""
    ensures resp.status == 200 ==>
              && resp.body.CheckResult?
              && resp.body.domain == v.s
              && resp.body.spf == ClassifySpf(QueryDns(resolve, Lookup(v.s, "TXT")))
              && resp.body.dkim == ClassifyDkim(QueryDns(resolve, Lookup(v.s, "TXT")))
              && resp.body.dmarc == ClassifyDmarc(QueryDns(resolve, Lookup("_dmarc." + v.s, "TXT")))
  {
    if !ValidDomain(v) then
      HttpResponse(400, ErrorBody("Invalid domain"))
    else
      var domain := v.s;
      var spf := ValidateSpf(resolve, domain);
      var dkim := ValidateDkim(resolve, domain);
      var dmarc := ValidateDmarc(resolve, domain);
      HttpResponse(200, CheckResult(domain, spf, dkim, dmarc))
  }

  // ---------------------------------------------------------------------
  // Properties
  // ---------------------------------------------------------------------

  /**
   * DMARC's query is never SPF's (nor DKIM's): its name is longer by the
   * `_dmarc.` label, so it can never be answered with the apex record.
   */
  lemma DmarcLookupDistinct(domain: string)
    ensures DmarcLookup(domain) != SpfLookup(domain)
    ensures DmarcLookup(domain) != DkimLookup(domain)
  {
    assert |DmarcLookup(domain).name| == |domain| + 7;
  }

  /**
   * `Lookups(v)` is what the handler queries: nothing for an invalid domain,
   * otherwise the SPF, DKIM and DMARC verdicts classify its three entries in order.
   */
  lemma HandlerQueriesLookups(resolve: Resolver, v: JsValue)
    ensures !ValidDomain(v) ==> |Lookups(v)| == 0
    ensures ValidDomain(v) ==>
              && |Lookups(v)| == 3
              && CheckDomain(resolve, v).body.spf == ClassifySpf(QueryDns(resolve, Lookups(v)[0]))
              && CheckDomain(resolve, v).body.dkim == ClassifyDkim(QueryDns(resolve, Lookups(v)[1]))
              && CheckDomain(resolve, v).body.dmarc == ClassifyDmarc(QueryDns(resolve, Lookups(v)[2]))
  {
  }

  /**
   * In the model the resolver is a function, so SPF and DKIM classify one
   * answer to one query.
   */
  lemma SpfDkimShareLookup(resolve: Resolver, domain: string)
    ensures DkimLookup(domain) == SpfLookup(domain)
    ensures var r := QueryDns(resolve, SpfLookup(domain));
              ValidateSpf(resolve, domain) == ClassifySpf(r) && ValidateDkim(resolve, domain) == ClassifyDkim(r)
    ensures ValidateSpf(resolve, domain).record == ValidateDkim(resolve, domain).record
    ensures ValidateDkim(resolve, domain).status == Pass ==> ValidateSpf(resolve, domain).record.Some?
  {
  }

  /**
   * No validator runs on invalid input, and a valid request depends on the
   * resolver only through the three queries it issues: two resolvers that agree
   * on `Lookups(v)` give identical responses.
   */
  lemma ResponseDependsOnlyOnLookups(r1: Resolver, r2: Resolver, v: JsValue)
    requires forall i :: 0 <= i < |Lookups(v)| ==> r1(Lookups(v)[i]) == r2(Lookups(v)[i])
    ensures CheckDomain(r1, v) == CheckDomain(r2, v)
  {
    if ValidDomain(v) {
      assert Lookups(v)[0] == SpfLookup(v.s);
      assert Lookups(v)[2] == DmarcLookup(v.s);
    }
  }

  /**
   * The validators hold no state: two resolvers that reduce to the same record
   * for a lookup give byte-identical results, however their raw responses differ.
   */
  lemma ValidatorsDeterministic(r1: Resolver, r2: Resolver, domain: string)
    requires QueryDns(r1, SpfLookup(domain)) == QueryDns(r2, SpfLookup(domain))
    requires QueryDns(r1, DmarcLookup(domain)) == QueryDns(r2, DmarcLookup(domain))
    ensures ValidateSpf(r1, domain) == ValidateSpf(r2, domain)
    ensures ValidateDkim(r1, domain) == ValidateDkim(r2, domain)
    ensures ValidateDmarc(r1, domain) == ValidateDmarc(r2, domain)
  {
  }
}
