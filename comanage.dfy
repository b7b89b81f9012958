/** `COmanageAttributeModule` (comanage.py): the configuration fixed at
    construction and the methods of the resolution chain. Each method returns
    its outcome and the registry requests it issued, in order, and is proved
    to compute the corresponding run of module Resolution. */
module Comanage {
  import opened PyJson
  import opened Registry
  import opened Harvest
  import opened Resolution

  const DefaultMembershipAttribute: string := "urn:oid:1.3.6.1.4.1.5923.1.5.1.1"

  /** The default email-type rule, `re.compile('official|delivery').search`:
      the type contains "official" or "delivery". */
  predicate DefaultEmailType(t: string) {
    IsSubstring("official", t) || IsSubstring("delivery", t)
  }

  class COmanageAttributeModule {
    /** The registry reached through the configured URL and credentials. */
    const registry: Oracle
    const config: Config

    constructor (registry: Oracle, coId: string, idpAttributeName: string, voIdentifierType: string,
                 emailTypeMatches: string -> bool := DefaultEmailType,
                 membershipAttributeSamlName: string := DefaultMembershipAttribute)
      ensures this.registry == registry
      ensures config == Config(coId, idpAttributeName, voIdentifierType, emailTypeMatches, membershipAttributeSamlName)
    {
      this.registry := registry;
      config := Config(coId, idpAttributeName, voIdentifierType, emailTypeMatches, membershipAttributeSamlName);
    }

    /** `get_attributes`: the chain inside a `try` that turns FailedRequestError
        into NoUserData carrying its message; other exceptions pass through. */
    method GetAttributes(idpAttributes: map<string, seq<string>>) returns (r: Result<Attrs>, sent: seq<Request>)
      ensures Run(r, sent) == Resolve(config, registry, idpAttributes)
    {
      r, sent := TryBlock(idpAttributes);
      if r.Raise? && r.error.FailedRequestError? {
        r := Raise(NoUserData(FetchFailedPrefix + r.error.message));
      }
    }

    /** The body of the `try` block of `get_attributes`: the user id, the
        organizational identity, the CO person and the four fragments, each
        exception ending the block. */
    method TryBlock(idpAttributes: map<string, seq<string>>) returns (r: Result<Attrs>, sent: seq<Request>)
      ensures Run(r, sent) == Chain(config, registry, idpAttributes)
    {
      sent := [];
      var userId := UserId(config.idpAttributeName, idpAttributes);
      if userId.Raise? {
        r := Raise(userId.error);
        return;
      }
      var orgId, s := GetOrgId(userId.value);
      sent := sent + s;
      if orgId.Raise? {
        r := Raise(orgId.error);
        return;
      }
      if !Truthy(orgId.value) {
        r := Ok(map[]);
        return;
      }
      var harvested, s1 := AttributesForOrg(orgId.value);
      sent := sent + s1;
      r := harvested;
    }

    /** The `if org_id:` branch of `get_attributes`: the CO person behind the
        organizational identity, then the four fragments merged into the
        still empty attribute map. */
    method AttributesForOrg(orgId: Value) returns (r: Result<Attrs>, sent: seq<Request>)
      ensures Run(r, sent) == ChainFromOrg(config, registry, orgId)
    {
      var personId;
      personId, sent := GetPersonId(orgId);
      if personId.Raise? {
        r := Raise(personId.error);
        return;
      }
      var s;
      r, s := UpdateWithFragments(personId.value);
      sent := sent + s;
    }

    /** The four successive `attributes.update(...)` calls of `get_attributes`,
        starting from the empty attribute map; the first exception stops the
        rest. */
    method UpdateWithFragments(personId: Value) returns (r: Result<Attrs>, sent: seq<Request>)
      ensures Run(r, sent) == HarvestRun(config, registry, personId)
    {
      var updated: Attrs := map[];
      ghost var reqs := HarvestRequests(personId);
      var name, s := GetNameInfo(personId);
      sent := s;
      if name.Raise? {
        r := Raise(name.error);
        return;
      }
      updated := updated + name.value;
      var email, s1 := GetEmailAddress(personId);
      sent := sent + s1;
      if email.Raise? {
        assert sent == reqs[..2];
        r := Raise(email.error);
        return;
      }
      updated := updated + email.value;
      var vo, s2 := GetVoInfo(personId);
      sent := sent + s2;
      if vo.Raise? {
        assert sent == reqs[..3];
        r := Raise(vo.error);
        return;
      }
      updated := updated + vo.value;
      var groups, s3 := GetGroupInfo(personId);
      sent := sent + s3;
      if groups.Raise? {
        r := Raise(groups.error);
        return;
      }
      updated := updated + groups.value;
      r := Ok(updated);
    }

    /** `_get_org_id`. */
    method GetOrgId(userId: string) returns (r: Result<Value>, sent: seq<Request>)
      ensures r == OrgIdLookup(config, registry, userId)
      ensures sent == [OrgIdentitiesRequest(config.coId, userId)]
    {
      var json;
      json, sent := MakeRequest(OrgIdentitiesRequest(config.coId, userId));
      if json.Raise? {
        r := Raise(json.error);
        return;
      }
      r := OrgIdOf(json.value);
    }

    /** `_get_person_id`: fetch the identity links and return the CoPersonId of
        the first one whose person belongs to the CO, issuing one membership
        request per link until then. */
    method GetPersonId(orgId: Value) returns (r: Result<Value>, sent: seq<Request>)
      ensures Run(r, sent) == PersonIdRun(config, registry, orgId)
    {
      var json;
      json, sent := MakeRequest(LinksRequest(orgId));
      if json.Raise? {
        r := Raise(json.error);
        return;
      }
      var list := Subscript(json.value, "CoOrgIdentityLinks");
      if list.Raise? {
        r := Raise(list.error);
        return;
      }
      var links := Iterate(list.value);
      if links.Raise? {
        r := Raise(links.error);
        return;
      }
      var scanned, s := FirstLinkInCo(links.value);
      r := scanned;
      sent := sent + s;
    }

    /** The `for link in links` loop of `_get_person_id`: the CoPersonId of the
        first link whose person is in the CO, None when none is, with one
        membership request per link examined. */
    method FirstLinkInCo(links: seq<Value>) returns (r: Result<Value>, sent: seq<Request>)
      ensures Run(r, sent) == ScanLinks(config, registry, links)
    {
      sent := [];
      ghost var run := ScanLinks(config, registry, links);
      var i := 0;
      while i < |links|
        invariant 0 <= i <= |links|
        invariant run == Run(ScanLinks(config, registry, links[i..]).result,
                             sent + ScanLinks(config, registry, links[i..]).sent)
      {
        ScanStep(config, registry, links, i);
        var personId := Subscript(links[i], "CoPersonId");
        if personId.Raise? {
          r := Raise(personId.error);
          return;
        }
        var inCo, s := PersonIdInCo(personId.value);
        sent := sent + s;
        if inCo.Raise? {
          r := Raise(inCo.error);
          return;
        }
        if inCo.value {
          r := Ok(personId.value);
          return;
        }
        i := i + 1;
      }
      r := Ok(Null);
    }

    /** `_person_id_in_co`. */
    method PersonIdInCo(personId: Value) returns (r: Result<bool>, sent: seq<Request>)
      ensures r == MembershipCheck(config, registry, personId)
      ensures sent == [CoPersonRequest(personId)]
    {
      var json;
      json, sent := MakeRequest(CoPersonRequest(personId));
      if json.Raise? {
        r := Raise(json.error);
        return;
      }
      r := PersonInCo(json.value, config.coId);
    }

    /** `_get_name_info`. */
    method GetNameInfo(personId: Value) returns (r: Result<Attrs>, sent: seq<Request>)
      ensures r == NameInfo(registry, personId)
      ensures sent == [NamesRequest(personId)]
    {
      var json;
      json, sent := MakeRequest(NamesRequest(personId));
      if json.Raise? {
        r := Raise(json.error);
        return;
      }
      r := NameFragment(json.value);
    }

    /** `_get_email_address`. */
    method GetEmailAddress(personId: Value) returns (r: Result<Attrs>, sent: seq<Request>)
      ensures r == EmailInfo(config, registry, personId)
      ensures sent == [EmailAddressesRequest(personId)]
    {
      var json;
      json, sent := MakeRequest(EmailAddressesRequest(personId));
      if json.Raise? {
        r := Raise(json.error);
        return;
      }
      r := EmailFragment(json.value, config.emailTypeMatches);
    }

    /** `_get_vo_info`. */
    method GetVoInfo(personId: Value) returns (r: Result<Attrs>, sent: seq<Request>)
      ensures r == VoInfo(config, registry, personId)
      ensures sent == [IdentifiersRequest(personId)]
    {
      var json;
      json, sent := MakeRequest(IdentifiersRequest(personId));
      if json.Raise? {
        r := Raise(json.error);
        return;
      }
      r := VoFragment(json.value, config.voIdentifierType);
    }

    /** `_get_group_info`. */
    method GetGroupInfo(personId: Value) returns (r: Result<Attrs>, sent: seq<Request>)
      ensures r == GroupInfo(config, registry, personId)
      ensures sent == [CoGroupsRequest(personId)]
    {
      var json;
      json, sent := MakeRequest(CoGroupsRequest(personId));
      if json.Raise? {
        r := Raise(json.error);
        return;
      }
      r := GroupFragment(json.value, config.membershipAttributeSamlName);
    }

    /** `_make_request`: one GET, classified. */
    method MakeRequest(req: Request) returns (r: Result<Value>, sent: seq<Request>)
      ensures r == Classify(registry(req))
      ensures sent == [req]
    {
      var resp := registry(req);
      sent := [req];
      r := Classify(resp);
    }
  }
}
