/** The registry exchanges of the module's test suite
    (tests/s2sproxy_module/test_comanage.py), stated about the model. */
module Scenarios {
  import opened PyJson
  import opened Registry
  import opened Harvest
  import opened Resolution
  import opened Comanage

  const CoId: string := "15"
  const PersonId: Value := Str("123")

  /** The user id is the first value of the configured IdP attribute. */
  lemma UserIdFromIdpAttribute()
    ensures UserId("eduPersonPrincipalName", map["eduPersonPrincipalName" := ["foo@example.com"]])
         == Ok("foo@example.com")
  {
  }

  /** The identity query for "foobar" in CO 15, answered with
      `{"OrgIdentities": [{"Id": "123"}]}`, yields the org id "123". */
  lemma OrgIdFromFirstIdentity(config: Config, registry: Oracle)
    requires config.coId == CoId
    requires registry(OrgIdentitiesRequest(CoId, "foobar"))
          == Http(Ok200, "", Some(Obj(map["OrgIdentities" := List([Obj(map["Id" := Str("123")])])])))
    ensures OrgIdLookup(config, registry, "foobar") == Ok(Str("123"))
  {
  }

  /** A person record in CO 15 passes the membership check for CO 15 only. */
  lemma PersonRecordInCo()
    ensures var body := Obj(map["CoPeople" := List([Obj(map["CoId" := Str(CoId), "Id" := PersonId])])]);
      PersonInCo(body, CoId) == Ok(true) && PersonInCo(body, "99") == Ok(false)
  {
  }

  /** The links of org identity 123: one link to person 456. */
  function LinksBody(): Value {
    Obj(map["CoOrgIdentityLinks" := List([Obj(map["CoPersonId" := Str("456"), "OrgIdentityId" := Str("123")])])])
  }

  /** The link query for org identity 123 returns one link to person 456, who
      is in the CO: the person id is 456, after the link query and one
      membership request. */
  lemma PersonIdFromSingleLink(config: Config, registry: Oracle)
    requires config.coId == CoId
    requires registry(LinksRequest(Str("123"))) == Http(Ok200, "", Some(LinksBody()))
    requires registry(CoPersonRequest(Str("456")))
          == Http(Ok200, "", Some(Obj(map["CoPeople" := List([Obj(map["CoId" := Str(CoId), "Id" := Str("456")])])])))
    ensures PersonIdRun(config, registry, Str("123"))
         == Run(Ok(Str("456")), [LinksRequest(Str("123")), CoPersonRequest(Str("456"))])
  {
  }

  /** When the person record names CO 99 instead, the scan finds nobody. */
  lemma PersonIdNotFoundInOtherCo(config: Config, registry: Oracle)
    requires config.coId == CoId
    requires registry(LinksRequest(Str("123"))) == Http(Ok200, "", Some(LinksBody()))
    requires registry(CoPersonRequest(Str("456")))
          == Http(Ok200, "", Some(Obj(map["CoPeople" := List([Obj(map["CoId" := Str("99"), "Id" := Str("456")])])])))
    ensures PersonIdRun(config, registry, Str("123"))
         == Run(Ok(Null), [LinksRequest(Str("123")), CoPersonRequest(Str("456"))])
  {
    var link := Obj(map["CoPersonId" := Str("456"), "OrgIdentityId" := Str("123")]);
    assert [link][1..] == [];
  }

  /** Donald Duck's primary name. */
  lemma PrimaryNameOfDonaldDuck()
    ensures var entry := Obj(map["Family" := Str("Duck"), "Given" := Str("Donald"),
                                 "Person" := Obj(map["Id" := PersonId]), "PrimaryName" := Bool(true)]);
      NameFragment(Obj(map["Names" := List([entry])]))
        == Ok(map["givenName" := Str("Donald"), "sn" := Str("Duck"), "displayName" := Str("Donald Duck")])
  {
    var entry := Obj(map["Family" := Str("Duck"), "Given" := Str("Donald"),
                         "Person" := Obj(map["Id" := PersonId]), "PrimaryName" := Bool(true)]);
    assert PrimaryFlag(entry) == Ok(true);
    NamePicksFirstPrimary(map["Names" := List([entry])], [entry], 0, Str("Donald"), Str("Duck"));
    assert PyStr(Str("Donald")) + " " + PyStr(Str("Duck")) == "Donald Duck";
  }

  /** An "official" address matches the default email-type rule. */
  lemma OfficialEmailAddress()
    ensures var entry := Obj(map["Mail" := Str("donald.duck@donaldduck.com"), "Type" := Str("official")]);
      EmailFragment(Obj(map["EmailAddresses" := List([entry])]), DefaultEmailType)
        == Ok(map["mail" := Str("donald.duck@donaldduck.com")])
  {
    var entry := Obj(map["Mail" := Str("donald.duck@donaldduck.com"), "Type" := Str("official")]);
    SubstringAfterPrefix("", "official", "");
    assert EmailTypeTest(DefaultEmailType)(entry) == Ok(true);
    EmailPicksFirstMatchingType(map["EmailAddresses" := List([entry])], [entry], DefaultEmailType, 0,
                                Str("donald.duck@donaldduck.com"));
  }

  /** The identifier of type voIdentifier becomes the uid. */
  lemma VoIdentifier()
    ensures var entry := Obj(map["Identifier" := Str("VO1111"), "Type" := Str("voIdentifier")]);
      VoFragment(Obj(map["Identifiers" := List([entry])]), "voIdentifier") == Ok(map["uid" := Str("VO1111")])
  {
  }

  /** An identifier of another type listed first is passed over. */
  lemma VoIdentifierAfterOtherType()
    ensures var other := Obj(map["Identifier" := Str("donald@example.org"), "Type" := Str("eppn")]);
            var vo := Obj(map["Identifier" := Str("VO1111"), "Type" := Str("voIdentifier")]);
      VoFragment(Obj(map["Identifiers" := List([other, vo])]), "voIdentifier") == Ok(map["uid" := Str("VO1111")])
  {
    var other := Obj(map["Identifier" := Str("donald@example.org"), "Type" := Str("eppn")]);
    var vo := Obj(map["Identifier" := Str("VO1111"), "Type" := Str("voIdentifier")]);
    var test := IdentifierTypeTest("voIdentifier");
    assert test(other) == Ok(false) && test(vo) == Ok(true);
    VoPicksFirstIdentifierOfType(map["Identifiers" := List([other, vo])], [other, vo], "voIdentifier", 1, Str("VO1111"));
  }

  /** A name that is not primary, listed first, is passed over. */
  lemma PrimaryNameAfterNickname()
    ensures var nick := Obj(map["Family" := Str("D"), "Given" := Str("Don"), "PrimaryName" := Bool(false)]);
            var primary := Obj(map["Family" := Str("Duck"), "Given" := Str("Donald"), "PrimaryName" := Bool(true)]);
      NameFragment(Obj(map["Names" := List([nick, primary])]))
        == Ok(map["givenName" := Str("Donald"), "sn" := Str("Duck"), "displayName" := Str("Donald Duck")])
  {
    var nick := Obj(map["Family" := Str("D"), "Given" := Str("Don"), "PrimaryName" := Bool(false)]);
    var primary := Obj(map["Family" := Str("Duck"), "Given" := Str("Donald"), "PrimaryName" := Bool(true)]);
    assert PrimaryFlag(nick) == Ok(false) && PrimaryFlag(primary) == Ok(true);
    NamePicksFirstPrimary(map["Names" := List([nick, primary])], [nick, primary], 1, Str("Donald"), Str("Duck"));
    assert PyStr(Str("Donald")) + " " + PyStr(Str("Duck")) == "Donald Duck";
  }

  /** A body without CoGroups yields no membership attribute. */
  lemma NoGroupsListed()
    ensures GroupFragment(Obj(map["ResponseType" := Str("CoGroups")]), DefaultMembershipAttribute) == Ok(map[])
  {
  }

  /** Both group names are listed, in order, under the membership attribute. */
  lemma BothGroupNames()
    ensures var body := Obj(map["CoGroups" := List([Obj(map["Name" := Str("members")]),
                                                    Obj(map["Name" := Str("members:Test COU 1")])])]);
      GroupFragment(body, DefaultMembershipAttribute)
        == Ok(map[DefaultMembershipAttribute := List([Str("members"), Str("members:Test COU 1")])])
  {
    var entries := [Obj(map["Name" := Str("members")]), Obj(map["Name" := Str("members:Test COU 1")])];
    var names := [Str("members"), Str("members:Test COU 1")];
    assert forall k :: 0 <= k < |entries| ==> Subscript(entries[k], "Name") == Ok(names[k]);
    var r := GroupNames(entries);
    assert r.Ok? && |r.value| == 2;
    assert r.value == names;
  }

  /** A connection error surfaces as FailedRequestError with its message. */
  lemma ConnectionErrorFails()
    ensures Classify(Transport("Something went wrong.")) == Raise(FailedRequestError("Something went wrong."))
  {
  }
}
