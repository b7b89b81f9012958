/** The resolution chain of `COmanageAttributeModule` (comanage.py) as
    functions of the configuration, the registry and the IdP's attributes.
    Each stage returns a `Run`: its outcome together with the registry
    requests it issued, in order. The class in module Comanage is proved to
    compute exactly these runs. */
module Resolution {
  import opened PyJson
  import opened Registry
  import opened FirstMatch
  import opened Harvest

  /** The immutable configuration fixed when the module is constructed. */
  datatype Config = Config(
    coId: string,
    idpAttributeName: string,
    voIdentifierType: string,
    emailTypeMatches: string -> bool,
    membershipAttributeSamlName: string)

  /** An outcome and the registry requests issued to reach it. */
  datatype Run<+T> = Run(result: Result<T>, sent: seq<Request>)

  function Last<T>(s: seq<T>): T
    requires s != []
  {
    s[|s| - 1]
  }

  function MissingAttributeMessage(idpAttributeName: string): string {
    "Necessary attribute '" + idpAttributeName + "' not returned by IdP."
  }

  const FetchFailedPrefix: string := "Failed to fetch user attributes: "

  // ---- stage 1: the identifier asserted by the IdP

  /** The first value of the configured IdP attribute. A missing attribute is
      reported as NoUserData; an empty value list raises IndexError, which is
      not caught. */
  function UserId(idpAttributeName: string, idpAttributes: map<string, seq<string>>): (r: Result<string>)
    ensures idpAttributeName !in idpAttributes <==> r == Raise(NoUserData(MissingAttributeMessage(idpAttributeName)))
    ensures r.Ok? <==> idpAttributeName in idpAttributes && idpAttributes[idpAttributeName] != []
    ensures r.Ok? ==> r.value == idpAttributes[idpAttributeName][0]
    ensures r.Raise? && idpAttributeName in idpAttributes ==> r.error == IndexError
  {
    if idpAttributeName !in idpAttributes then Raise(NoUserData(MissingAttributeMessage(idpAttributeName)))
    else if idpAttributes[idpAttributeName] == [] then Raise(IndexError)
    else Ok(idpAttributes[idpAttributeName][0])
  }

  lemma {:induction false} SubstringAfterPrefix(pre: string, needle: string, post: string)
    ensures IsSubstring(needle, pre + needle + post)
    decreases |pre|
  {
    var hay := pre + needle + post;
    if pre == [] {
      assert hay[..|needle|] == needle;
    } else {
      assert hay[1..] == pre[1..] + needle + post;
      SubstringAfterPrefix(pre[1..], needle, post);
    }
  }

  /** The NoUserData raised for a missing attribute names that attribute. */
  lemma MissingAttributeMessageNamesIt(idpAttributeName: string)
    ensures IsSubstring(idpAttributeName, MissingAttributeMessage(idpAttributeName))
  {
    SubstringAfterPrefix("Necessary attribute '", idpAttributeName, "' not returned by IdP.");
  }

  // ---- stage 2: the organizational identity

  /** `json["OrgIdentities"]`: the Id of its first entry when the list is
      non-empty, None when it is empty. A body without the key (a 204 among
      others) raises KeyError. */
  function OrgIdOf(body: Value): (r: Result<Value>)
    ensures body.Obj? && "OrgIdentities" !in body.fields ==> r == Raise(KeyError("OrgIdentities"))
    ensures r.Raise? ==> IsLookupError(r.error)
    ensures body.Obj? && "OrgIdentities" in body.fields && body.fields["OrgIdentities"] == List([])
            ==> r == Ok(Null)
    ensures body.Obj? && "OrgIdentities" in body.fields && body.fields["OrgIdentities"].List?
            && body.fields["OrgIdentities"].items != []
            ==> r == Subscript(body.fields["OrgIdentities"].items[0], "Id")
  {
    var identities :- Subscript(body, "OrgIdentities");
    if Truthy(identities) then
      var first :- Index0(identities);
      Subscript(first, "Id")
    else Ok(Null)
  }

  function OrgIdLookup(config: Config, registry: Oracle, userId: string): Result<Value> {
    var body :- Fetch(registry, OrgIdentitiesRequest(config.coId, userId));
    OrgIdOf(body)
  }

  // ---- stage 3: the CO person, by a linear scan of the identity links

  /** `json["CoPeople"][0]["CoId"] == co_id`, with no guard on the list. */
  function PersonInCo(body: Value, coId: string): (r: Result<bool>)
    ensures body.Obj? && "CoPeople" !in body.fields ==> r == Raise(KeyError("CoPeople"))
    ensures r.Raise? ==> IsLookupError(r.error)
    ensures body.Obj? && "CoPeople" in body.fields && body.fields["CoPeople"] == List([])
            ==> r == Raise(IndexError)
    ensures body.Obj? && "CoPeople" in body.fields && body.fields["CoPeople"].List?
            && body.fields["CoPeople"].items != []
            && body.fields["CoPeople"].items[0].Obj? && "CoId" in body.fields["CoPeople"].items[0].fields
            ==> r == Ok(body.fields["CoPeople"].items[0].fields["CoId"] == Str(coId))
    ensures body.Obj? && "CoPeople" in body.fields && body.fields["CoPeople"].List?
            && body.fields["CoPeople"].items != []
            && body.fields["CoPeople"].items[0].Obj? && "CoId" !in body.fields["CoPeople"].items[0].fields
            ==> r == Raise(KeyError("CoId"))
  {
    var people :- Subscript(body, "CoPeople");
    var first :- Index0(people);
    var personCoId :- Subscript(first, "CoId");
    Ok(personCoId == Str(coId))
  }

  function MembershipCheck(config: Config, registry: Oracle, personId: Value): Result<bool> {
    var body :- Fetch(registry, CoPersonRequest(personId));
    PersonInCo(body, config.coId)
  }

  /** One turn of the scan: read the link's CoPersonId and check its membership. */
  function LinkInCo(config: Config, registry: Oracle, link: Value): Result<bool> {
    var personId :- Subscript(link, "CoPersonId");
    MembershipCheck(config, registry, personId)
  }

  function LinkTest(config: Config, registry: Oracle): Value -> Result<bool> {
    link => LinkInCo(config, registry, link)
  }

  /** The CoPersonId of a link, where reading it succeeds. */
  function LinkPersonId(link: Value): Value {
    match Subscript(link, "CoPersonId")
    case Ok(personId) => personId
    case Raise(_) => Null
  }

  /** The membership requests issued for the given links, one per link. */
  function MembershipRequests(links: seq<Value>): (reqs: seq<Request>)
    ensures |reqs| == |links|
  {
    seq(|links|, j requires 0 <= j < |links| => CoPersonRequest(LinkPersonId(links[j])))
  }

  lemma MembershipRequestsCons(links: seq<Value>)
    requires links != []
    ensures MembershipRequests(links) == [CoPersonRequest(LinkPersonId(links[0]))] + MembershipRequests(links[1..])
  {
    var tail := MembershipRequests(links[1..]);
    forall j | 1 <= j < |links| ensures MembershipRequests(links)[j] == tail[j - 1] {
      assert links[1..][j - 1] == links[j];
    }
  }

  /** The loop of `_get_person_id`: the first link whose person is in the CO,
      or None when the links run out. */
  function ScanLinks(config: Config, registry: Oracle, links: seq<Value>): Run<Value>
    decreases |links|
  {
    if links == [] then Run(Ok(Null), [])
    else
      match Subscript(links[0], "CoPersonId")
      case Raise(e) => Run(Raise(e), [])
      case Ok(personId) =>
        var req := CoPersonRequest(personId);
        match MembershipCheck(config, registry, personId)
        case Raise(e) => Run(Raise(e), [req])
        case Ok(inCo) =>
          if inCo then Run(Ok(personId), [req])
          else
            var rest := ScanLinks(config, registry, links[1..]);
            Run(rest.result, [req] + rest.sent)
  }

  /** One turn of the scan, from link `i` on. */
  lemma ScanStep(config: Config, registry: Oracle, links: seq<Value>, i: int)
    requires 0 <= i < |links|
    ensures var personId := Subscript(links[i], "CoPersonId");
            var here := ScanLinks(config, registry, links[i..]);
            var next := ScanLinks(config, registry, links[i + 1..]);
      && (personId.Raise? ==> here == Run(Raise(personId.error), []))
      && (personId.Ok? ==>
            var req := CoPersonRequest(personId.value);
            var inCo := MembershipCheck(config, registry, personId.value);
            && (inCo.Raise? ==> here == Run(Raise(inCo.error), [req]))
            && (inCo == Ok(true) ==> here == Run(Ok(personId.value), [req]))
            && (inCo == Ok(false) ==> here == Run(next.result, [req] + next.sent)))
  {
    assert links[i..][0] == links[i];
    assert links[i..][1..] == links[i + 1..];
  }

  /** `_get_person_id`: fetch the identity links, then scan them. */
  function PersonIdRun(config: Config, registry: Oracle, orgId: Value): Run<Value> {
    var req := LinksRequest(orgId);
    var links := (var body :- Fetch(registry, req);
                  var list :- Subscript(body, "CoOrgIdentityLinks");
                  Iterate(list));
    match links
    case Raise(e) => Run(Raise(e), [req])
    case Ok(entries) =>
      var scan := ScanLinks(config, registry, entries);
      Run(scan.result, [req] + scan.sent)
  }

  /** The scan returns the CoPersonId of the first link that passes the
      membership check, and issues one membership request per link up to that
      link and none after it. */
  lemma {:induction false} ScanStopsAtFirstMember(config: Config, registry: Oracle, links: seq<Value>, i: int)
    requires FirstPasses(links, LinkTest(config, registry), i)
    ensures ScanLinks(config, registry, links)
         == Run(Ok(LinkPersonId(links[i])), MembershipRequests(links[..i + 1]))
    decreases |links|
  {
    var test := LinkTest(config, registry);
    assert test(links[0]) == LinkInCo(config, registry, links[0]);
    var req := CoPersonRequest(LinkPersonId(links[0]));
    if i == 0 {
      assert MembershipRequests(links[..1]) == [req];
    } else {
      FirstPassesTail(links, test, i);
      ScanStopsAtFirstMember(config, registry, links[1..], i - 1);
      assert links[1..][..i] == links[..i + 1][1..];
      MembershipRequestsCons(links[..i + 1]);
    }
  }

  /** When no link passes, the scan returns None after one membership request per link. */
  lemma {:induction false} ScanWithoutMember(config: Config, registry: Oracle, links: seq<Value>)
    requires NonePass(links, LinkTest(config, registry))
    ensures ScanLinks(config, registry, links) == Run(Ok(Null), MembershipRequests(links))
    decreases |links|
  {
    if links != [] {
      var test := LinkTest(config, registry);
      assert test(links[0]) == LinkInCo(config, registry, links[0]);
      NonePassTail(links, test);
      ScanWithoutMember(config, registry, links[1..]);
      var req := CoPersonRequest(LinkPersonId(links[0]));
      MembershipRequestsCons(links);
    }
  }

  /** An exception while checking a link ends the scan with that exception,
      after one membership request per link examined; the failing link issued
      its request only when its CoPersonId could be read. */
  lemma {:induction false} ScanRaisesFirstError(config: Config, registry: Oracle, links: seq<Value>, i: int, e: Error)
    requires FirstRaises(links, LinkTest(config, registry), i, e)
    ensures ScanLinks(config, registry, links)
         == Run(Raise(e), MembershipRequests(links[..if Subscript(links[i], "CoPersonId").Ok? then i + 1 else i]))
    decreases |links|
  {
    var test := LinkTest(config, registry);
    assert test(links[0]) == LinkInCo(config, registry, links[0]);
    var n := if Subscript(links[i], "CoPersonId").Ok? then i + 1 else i;
    if i == 0 {
      if n == 1 {
        assert MembershipRequests(links[..1]) == [CoPersonRequest(LinkPersonId(links[0]))];
      }
    } else {
      FirstRaisesTail(links, test, i, e);
      ScanRaisesFirstError(config, registry, links[1..], i - 1, e);
      assert links[1..][i - 1] == links[i];
      assert links[1..][..n - 1] == links[..n][1..];
      MembershipRequestsCons(links[..n]);
    }
  }

  // ---- stage 4: the four fragments

  function NameInfo(registry: Oracle, personId: Value): Result<Attrs> {
    var body :- Fetch(registry, NamesRequest(personId));
    NameFragment(body)
  }

  function EmailInfo(config: Config, registry: Oracle, personId: Value): Result<Attrs> {
    var body :- Fetch(registry, EmailAddressesRequest(personId));
    EmailFragment(body, config.emailTypeMatches)
  }

  function VoInfo(config: Config, registry: Oracle, personId: Value): Result<Attrs> {
    var body :- Fetch(registry, IdentifiersRequest(personId));
    VoFragment(body, config.voIdentifierType)
  }

  function GroupInfo(config: Config, registry: Oracle, personId: Value): Result<Attrs> {
    var body :- Fetch(registry, CoGroupsRequest(personId));
    GroupFragment(body, config.membershipAttributeSamlName)
  }

  function HarvestRequests(personId: Value): seq<Request> {
    [NamesRequest(personId), EmailAddressesRequest(personId),
     IdentifiersRequest(personId), CoGroupsRequest(personId)]
  }

  /** The four harvesting queries in source order, merged into one map by
      successive updates; the first exception stops the rest. */
  function HarvestRun(config: Config, registry: Oracle, personId: Value): Run<Attrs> {
    var reqs := HarvestRequests(personId);
    var name := NameInfo(registry, personId);
    if name.Raise? then Run(Raise(name.error), reqs[..1]) else
    var email := EmailInfo(config, registry, personId);
    if email.Raise? then Run(Raise(email.error), reqs[..2]) else
    var vo := VoInfo(config, registry, personId);
    if vo.Raise? then Run(Raise(vo.error), reqs[..3]) else
    var groups := GroupInfo(config, registry, personId);
    if groups.Raise? then Run(Raise(groups.error), reqs) else
    Run(Ok(map[] + name.value + email.value + vo.value + groups.value), reqs)
  }

  /** A successful harvest answered all four queries and merged all four fragments. */
  lemma HarvestSucceeded(config: Config, registry: Oracle, personId: Value)
    requires HarvestRun(config, registry, personId).result.Ok?
    ensures && NameInfo(registry, personId).Ok? && EmailInfo(config, registry, personId).Ok?
            && VoInfo(config, registry, personId).Ok? && GroupInfo(config, registry, personId).Ok?
    ensures HarvestRun(config, registry, personId)
         == Run(Ok(map[] + NameInfo(registry, personId).value + EmailInfo(config, registry, personId).value
                   + VoInfo(config, registry, personId).value + GroupInfo(config, registry, personId).value),
                HarvestRequests(personId))
  {
  }

  /** The harvest always starts with the names query. */
  lemma HarvestStartsWithNames(config: Config, registry: Oracle, personId: Value)
    ensures var h := HarvestRun(config, registry, personId);
      1 <= |h.sent| <= 4 && h.sent[0] == NamesRequest(personId)
  {
  }

  /** Each fragment uses only its own attribute names. */
  lemma FragmentKeys(config: Config, registry: Oracle, personId: Value)
    ensures NameInfo(registry, personId).Ok? ==> NameInfo(registry, personId).value.Keys <= NameKeys
    ensures EmailInfo(config, registry, personId).Ok? ==> EmailInfo(config, registry, personId).value.Keys <= {"mail"}
    ensures VoInfo(config, registry, personId).Ok? ==> VoInfo(config, registry, personId).value.Keys <= {"uid"}
    ensures GroupInfo(config, registry, personId).Ok?
            ==> GroupInfo(config, registry, personId).value.Keys <= {config.membershipAttributeSamlName}
  {
  }

  // ---- the chain, and its error translation

  /** The body of the `try` block of `get_attributes`. */
  function Chain(config: Config, registry: Oracle, idpAttributes: map<string, seq<string>>): Run<Attrs> {
    match UserId(config.idpAttributeName, idpAttributes)
    case Raise(e) => Run(Raise(e), [])
    case Ok(userId) => ChainFromUser(config, registry, userId)
  }

  /** The chain once the user id is known: the identity query, then, for a
      truthy organizational identity, the person and the fragments. */
  function ChainFromUser(config: Config, registry: Oracle, userId: string): Run<Attrs> {
    var orgReq := OrgIdentitiesRequest(config.coId, userId);
    match OrgIdLookup(config, registry, userId)
    case Raise(e) => Run(Raise(e), [orgReq])
    case Ok(orgId) =>
      if !Truthy(orgId) then Run(Ok(map[]), [orgReq])
      else
        var rest := ChainFromOrg(config, registry, orgId);
        Run(rest.result, [orgReq] + rest.sent)
  }

  /** The chain once a truthy organizational identity is known. */
  function ChainFromOrg(config: Config, registry: Oracle, orgId: Value): Run<Attrs> {
    var person := PersonIdRun(config, registry, orgId);
    match person.result
    case Raise(e) => Run(Raise(e), person.sent)
    case Ok(personId) =>
      var harvest := HarvestRun(config, registry, personId);
      Run(harvest.result, person.sent + harvest.sent)
  }

  /** `get_attributes`: the chain, with every FailedRequestError turned into
      NoUserData carrying its message. Other exceptions pass through. */
  function Resolve(config: Config, registry: Oracle, idpAttributes: map<string, seq<string>>): Run<Attrs> {
    var chain := Chain(config, registry, idpAttributes);
    if chain.result.Raise? && chain.result.error.FailedRequestError? then
      Run(Raise(NoUserData(FetchFailedPrefix + chain.result.error.message)), chain.sent)
    else chain
  }

  // ---- requests are strictly sequential and the first failure ends the run

  /** Every request but the last was answered; when the last one was not,
      its exception is the run's; and any other exception comes from the shape
      of a JSON body. */
  ghost predicate StopsAtFirstFailure<T>(registry: Oracle, run: Run<T>) {
    && (forall k :: 0 <= k < |run.sent| - 1 ==> Fetch(registry, run.sent[k]).Ok?)
    && (run.sent != [] && Fetch(registry, Last(run.sent)).Raise? ==>
          run.result == Raise(Fetch(registry, Last(run.sent)).error))
    && (run.result.Raise? ==>
          || IsLookupError(run.result.error)
          || (run.sent != [] && Fetch(registry, Last(run.sent)) == Raise(run.result.error)))
  }

  /** A run that succeeded, followed by another run, stops at the first failure. */
  lemma Sequenced<T, U>(registry: Oracle, first: Run<T>, second: Run<U>)
    requires StopsAtFirstFailure(registry, first) && first.result.Ok?
    requires StopsAtFirstFailure(registry, second)
    ensures StopsAtFirstFailure(registry, Run(second.result, first.sent + second.sent))
  {
    var sent := first.sent + second.sent;
    forall k | 0 <= k < |sent| - 1 ensures Fetch(registry, sent[k]).Ok? {
      if k >= |first.sent| {
        assert sent[k] == second.sent[k - |first.sent|];
      }
    }
    if second.sent != [] {
      assert Last(sent) == Last(second.sent);
    }
  }

  lemma {:induction false} ScanStopsAtFirstFailure(config: Config, registry: Oracle, links: seq<Value>)
    ensures StopsAtFirstFailure(registry, ScanLinks(config, registry, links))
    decreases |links|
  {
    if links != [] && Subscript(links[0], "CoPersonId").Ok? {
      var personId := Subscript(links[0], "CoPersonId").value;
      var req := CoPersonRequest(personId);
      var check := MembershipCheck(config, registry, personId);
      if check == Ok(false) {
        ScanStopsAtFirstFailure(config, registry, links[1..]);
        Sequenced(registry, Run(Ok(personId), [req]), ScanLinks(config, registry, links[1..]));
      }
    }
  }

  lemma PersonIdRunStopsAtFirstFailure(config: Config, registry: Oracle, orgId: Value)
    ensures StopsAtFirstFailure(registry, PersonIdRun(config, registry, orgId))
  {
    var req := LinksRequest(orgId);
    var body := Fetch(registry, req);
    if body.Ok? {
      var list := Subscript(body.value, "CoOrgIdentityLinks");
      if list.Ok? && Iterate(list.value).Ok? {
        var links := Iterate(list.value).value;
        ScanStopsAtFirstFailure(config, registry, links);
        Sequenced(registry, Run(Ok(links), [req]), ScanLinks(config, registry, links));
      }
    }
  }

  lemma HarvestStopsAtFirstFailure(config: Config, registry: Oracle, personId: Value)
    ensures StopsAtFirstFailure(registry, HarvestRun(config, registry, personId))
  {
    var h := HarvestRun(config, registry, personId);
    var reqs := HarvestRequests(personId);
    var name := NameInfo(registry, personId);
    var email := EmailInfo(config, registry, personId);
    var vo := VoInfo(config, registry, personId);
    if name.Raise? {
      assert h == Run(Raise(name.error), [NamesRequest(personId)]);
    } else if email.Raise? {
      assert h == Run(Raise(email.error), [NamesRequest(personId), EmailAddressesRequest(personId)]);
    } else if vo.Raise? {
      assert h == Run(Raise(vo.error), [NamesRequest(personId), EmailAddressesRequest(personId), IdentifiersRequest(personId)]);
    } else {
      assert h.sent == reqs;
    }
  }

  lemma ChainFromOrgStopsAtFirstFailure(config: Config, registry: Oracle, orgId: Value)
    ensures StopsAtFirstFailure(registry, ChainFromOrg(config, registry, orgId))
  {
    var person := PersonIdRun(config, registry, orgId);
    PersonIdRunStopsAtFirstFailure(config, registry, orgId);
    if person.result.Ok? {
      var harvest := HarvestRun(config, registry, person.result.value);
      HarvestStopsAtFirstFailure(config, registry, person.result.value);
      Sequenced(registry, person, harvest);
    }
  }

  /** Apart from the IdP attribute lookup, which issues no request, the chain
      stops at its first failed request. */
  lemma ChainStopsAtFirstFailure(config: Config, registry: Oracle, idpAttributes: map<string, seq<string>>)
    ensures var chain := Chain(config, registry, idpAttributes);
      match UserId(config.idpAttributeName, idpAttributes)
      case Raise(e) => chain == Run(Raise(e), [])
      case Ok(_) => StopsAtFirstFailure(registry, chain)
  {
    var user := UserId(config.idpAttributeName, idpAttributes);
    if user.Ok? {
      var orgReq := OrgIdentitiesRequest(config.coId, user.value);
      var org := OrgIdLookup(config, registry, user.value);
      if org.Ok? && Truthy(org.value) {
        ChainFromOrgStopsAtFirstFailure(config, registry, org.value);
        Sequenced(registry, Run(Ok(org.value), [orgReq]), ChainFromOrg(config, registry, org.value));
      }
    }
  }

  /** Every registry failure, at whichever stage, reaches the caller as
      NoUserData carrying the original message; a NoUserData comes either from
      the missing IdP attribute or from the last request sent, which is the
      only one not answered. */
  lemma RegistryFailureBecomesNoUserData(config: Config, registry: Oracle, idpAttributes: map<string, seq<string>>)
    ensures var run := Resolve(config, registry, idpAttributes);
      && (forall k :: 0 <= k < |run.sent| - 1 ==> Fetch(registry, run.sent[k]).Ok?)
      && (run.result.Raise? ==> !run.result.error.FailedRequestError?)
      && (run.sent != [] && Fetch(registry, Last(run.sent)).Raise?
          && Fetch(registry, Last(run.sent)).error.FailedRequestError?
          ==> run.result == Raise(NoUserData(FetchFailedPrefix + Fetch(registry, Last(run.sent)).error.message)))
      && (run.result.Raise? && run.result.error.NoUserData? ==>
          || (run.sent == [] && config.idpAttributeName !in idpAttributes
              && run.result.error.message == MissingAttributeMessage(config.idpAttributeName))
          || (run.sent != [] && Fetch(registry, Last(run.sent)).Raise?
              && Fetch(registry, Last(run.sent)).error.FailedRequestError?
              && run.result.error.message == FetchFailedPrefix + Fetch(registry, Last(run.sent)).error.message))
  {
    ChainStopsAtFirstFailure(config, registry, idpAttributes);
  }

  // ---- shape of the outcome

  /** Without the configured IdP attribute, the resolution fails with
      NoUserData naming it, before any request. */
  lemma MissingAttributeFailsBeforeAnyRequest(config: Config, registry: Oracle,
                                              idpAttributes: map<string, seq<string>>)
    requires config.idpAttributeName !in idpAttributes
    ensures Resolve(config, registry, idpAttributes)
         == Run(Raise(NoUserData(MissingAttributeMessage(config.idpAttributeName))), [])
  {
  }

  /** A falsy organizational-identity id ends the resolution with no
      attributes, after the one identity query. */
  lemma FalsyOrgIdShortCircuits(config: Config, registry: Oracle, idpAttributes: map<string, seq<string>>, userId: string)
    requires UserId(config.idpAttributeName, idpAttributes) == Ok(userId)
    requires OrgIdLookup(config, registry, userId).Ok? && !Truthy(OrgIdLookup(config, registry, userId).value)
    ensures Resolve(config, registry, idpAttributes) == Run(Ok(map[]), [OrgIdentitiesRequest(config.coId, userId)])
  {
  }

  /** A successful resolution issued the identity query first; then either
      nothing else, and returns nothing, or the link query next and the four
      harvesting queries last. */
  lemma SuccessIssuesOneOrAllQueries(config: Config, registry: Oracle, idpAttributes: map<string, seq<string>>)
    ensures var run := Resolve(config, registry, idpAttributes);
      run.result.Ok? ==>
        && UserId(config.idpAttributeName, idpAttributes).Ok?
        && var userId := UserId(config.idpAttributeName, idpAttributes).value;
        && run.sent != [] && run.sent[0] == OrgIdentitiesRequest(config.coId, userId)
        && OrgIdLookup(config, registry, userId).Ok?
        && var orgId := OrgIdLookup(config, registry, userId).value;
        && (!Truthy(orgId) ==> run == Run(Ok(map[]), [OrgIdentitiesRequest(config.coId, userId)]))
        && (Truthy(orgId) ==>
              && |run.sent| >= 6 && run.sent[1] == LinksRequest(orgId)
              && PersonIdRun(config, registry, orgId).result.Ok?
              && run.sent[|run.sent| - 4..] == HarvestRequests(PersonIdRun(config, registry, orgId).result.value))
  {
    var user := UserId(config.idpAttributeName, idpAttributes);
    if user.Ok? {
      var org := OrgIdLookup(config, registry, user.value);
      if org.Ok? && Truthy(org.value) {
        var orgReq := OrgIdentitiesRequest(config.coId, user.value);
        var rest := ChainFromOrg(config, registry, org.value);
        OrgBranchSuccessSendsAll(config, registry, org.value);
        if rest.result.Ok? {
          var sent := [orgReq] + rest.sent;
          assert sent[1] == rest.sent[0];
          assert sent[|sent| - 4..] == rest.sent[|rest.sent| - 4..];
        }
      }
    }
  }

  /** A successful `if org_id:` branch issued the link query first and the
      four harvesting queries last. */
  lemma OrgBranchSuccessSendsAll(config: Config, registry: Oracle, orgId: Value)
    ensures var run := ChainFromOrg(config, registry, orgId);
      run.result.Ok? ==>
        && |run.sent| >= 5 && run.sent[0] == LinksRequest(orgId)
        && PersonIdRun(config, registry, orgId).result.Ok?
        && run.sent[|run.sent| - 4..] == HarvestRequests(PersonIdRun(config, registry, orgId).result.value)
  {
    var person := PersonIdRun(config, registry, orgId);
    assert person.sent[0] == LinksRequest(orgId);
    if person.result.Ok? && HarvestRun(config, registry, person.result.value).result.Ok? {
      HarvestSucceeded(config, registry, person.result.value);
      var sent := person.sent + HarvestRequests(person.result.value);
      assert sent[|sent| - 4..] == HarvestRequests(person.result.value);
    }
  }

  /** When no link yields a CO person, the harvesting queries still run, with
      the person id None sent as the text "None". */
  lemma UnresolvedPersonStillHarvests(config: Config, registry: Oracle, idpAttributes: map<string, seq<string>>,
                                      userId: string, orgId: Value)
    requires UserId(config.idpAttributeName, idpAttributes) == Ok(userId)
    requires OrgIdLookup(config, registry, userId) == Ok(orgId) && Truthy(orgId)
    requires PersonIdRun(config, registry, orgId).result == Ok(Null)
    ensures var prefix := [OrgIdentitiesRequest(config.coId, userId)] + PersonIdRun(config, registry, orgId).sent;
            var run := Resolve(config, registry, idpAttributes);
      && |run.sent| > |prefix| && run.sent[..|prefix|] == prefix
      && run.sent[|prefix|] == NamesRequest(Null)
      && run.sent[|prefix|].query == [("copersonid", "None")]
  {
    var prefix := [OrgIdentitiesRequest(config.coId, userId)] + PersonIdRun(config, registry, orgId).sent;
    var person := PersonIdRun(config, registry, orgId);
    var harvest := HarvestRun(config, registry, Null);
    HarvestStartsWithNames(config, registry, Null);
    assert ChainFromOrg(config, registry, orgId) == Run(harvest.result, person.sent + harvest.sent);
    assert (prefix + harvest.sent)[..|prefix|] == prefix;
  }

  /** A 204 on the identity query is not "nothing found": the missing key
      raises KeyError, which escapes uncaught. */
  lemma OrgNoContentRaisesKeyError(config: Config, registry: Oracle, idpAttributes: map<string, seq<string>>,
                                   userId: string, text: string, body: Option<Value>)
    requires UserId(config.idpAttributeName, idpAttributes) == Ok(userId)
    requires registry(OrgIdentitiesRequest(config.coId, userId)) == Http(NoContent204, text, body)
    ensures Resolve(config, registry, idpAttributes)
         == Run(Raise(KeyError("OrgIdentities")), [OrgIdentitiesRequest(config.coId, userId)])
  {
  }

  /** Likewise a link-query body without CoOrgIdentityLinks, a 204 among
      others. */
  lemma LinksNoContentRaisesKeyError(config: Config, registry: Oracle, orgId: Value, body: Value)
    requires Fetch(registry, LinksRequest(orgId)) == Ok(body)
    requires body.Obj? && "CoOrgIdentityLinks" !in body.fields
    ensures PersonIdRun(config, registry, orgId) == Run(Raise(KeyError("CoOrgIdentityLinks")), [LinksRequest(orgId)])
  {
  }

  /** A 204 on a harvesting query yields an empty fragment. */
  lemma HarvestNoContentIsEmpty(config: Config, registry: Oracle, personId: Value)
    ensures registry(NamesRequest(personId)).Http? && registry(NamesRequest(personId)).status == NoContent204
            ==> NameInfo(registry, personId) == Ok(map[])
    ensures registry(EmailAddressesRequest(personId)).Http? && registry(EmailAddressesRequest(personId)).status == NoContent204
            ==> EmailInfo(config, registry, personId) == Ok(map[])
    ensures registry(IdentifiersRequest(personId)).Http? && registry(IdentifiersRequest(personId)).status == NoContent204
            ==> VoInfo(config, registry, personId) == Ok(map[])
    ensures registry(CoGroupsRequest(personId)).Http? && registry(CoGroupsRequest(personId)).status == NoContent204
            ==> GroupInfo(config, registry, personId) == Ok(map[])
  {
  }

  /** The outbound attributes are drawn from the six names the fragments use. */
  lemma OutboundKeys(config: Config, registry: Oracle, idpAttributes: map<string, seq<string>>)
    ensures var run := Resolve(config, registry, idpAttributes);
      run.result.Ok? ==> run.result.value.Keys <= NameKeys + {"mail", "uid", config.membershipAttributeSamlName}
  {
    var user := UserId(config.idpAttributeName, idpAttributes);
    if user.Ok? {
      var org := OrgIdLookup(config, registry, user.value);
      if org.Ok? && Truthy(org.value) {
        HarvestKeys(config, registry, org.value);
      }
    }
  }

  lemma HarvestKeys(config: Config, registry: Oracle, orgId: Value)
    ensures var run := ChainFromOrg(config, registry, orgId);
      run.result.Ok? ==> run.result.value.Keys <= NameKeys + {"mail", "uid", config.membershipAttributeSamlName}
  {
    var person := PersonIdRun(config, registry, orgId);
    if person.result.Ok? && HarvestRun(config, registry, person.result.value).result.Ok? {
      HarvestSucceeded(config, registry, person.result.value);
      FragmentKeys(config, registry, person.result.value);
    }
  }

  /** When all four fragments succeed, the harvest succeeds after the four
      queries with their union; when the group attribute name differs from the
      other five names, no fragment overwrites another. HarvestSucceeded is
      the converse. */
  lemma HarvestIsUnionOfFragments(config: Config, registry: Oracle, personId: Value,
                                  name: Attrs, email: Attrs, vo: Attrs, groups: Attrs)
    requires NameInfo(registry, personId) == Ok(name) && EmailInfo(config, registry, personId) == Ok(email)
    requires VoInfo(config, registry, personId) == Ok(vo) && GroupInfo(config, registry, personId) == Ok(groups)
    ensures var h := HarvestRun(config, registry, personId);
      && h.result.Ok? && h.sent == HarvestRequests(personId)
      && h.result.value.Keys == name.Keys + email.Keys + vo.Keys + groups.Keys
      && (config.membershipAttributeSamlName !in NameKeys + {"mail", "uid"} ==>
            && (forall k :: k in name ==> h.result.value[k] == name[k])
            && (forall k :: k in email ==> h.result.value[k] == email[k])
            && (forall k :: k in vo ==> h.result.value[k] == vo[k])
            && (forall k :: k in groups ==> h.result.value[k] == groups[k]))
  {
    FragmentKeys(config, registry, personId);
    if config.membershipAttributeSamlName !in NameKeys + {"mail", "uid"} {
      DisjointUpdatesKeepEntries(name, email, vo, groups, config.membershipAttributeSamlName);
    }
  }

  /** Successive updates with maps drawn from pairwise apart key sets keep every entry. */
  lemma DisjointUpdatesKeepEntries(a: Attrs, b: Attrs, c: Attrs, d: Attrs, groupKey: string)
    requires a.Keys <= NameKeys && b.Keys <= {"mail"} && c.Keys <= {"uid"} && d.Keys <= {groupKey}
    requires groupKey !in NameKeys + {"mail", "uid"}
    ensures var m := map[] + a + b + c + d;
      && m.Keys == a.Keys + b.Keys + c.Keys + d.Keys
      && (forall k :: k in a ==> m[k] == a[k])
      && (forall k :: k in b ==> m[k] == b[k])
      && (forall k :: k in c ==> m[k] == c[k])
      && (forall k :: k in d ==> m[k] == d[k])
  {
  }
}
