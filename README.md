# COmanage attribute module, modelled in Dafny

`COmanageAttributeModule` (src/s2sproxy_module/comanage.py) is the attribute
source of an s2sproxy SAML proxy. Given the attributes an identity provider
asserted for a user, it asks a COmanage Registry, over its REST interface, who
that user is in the configured collaborative organization (CO). It then returns
a flat attribute map with the user's name, email address, VO identifier and
group memberships. Resolution runs in this order:

1. The user id is the first value of the configured IdP attribute.
2. The org identities query returns the organizational identity's Id.
3. The identity-links query returns links; they are scanned in order, one
   person-record query each, for the first CO person whose `CoId` is the
   configured CO.
4. Four queries (names, email addresses, identifiers, groups) yield four
   fragments, merged by successive `dict.update`.

Every query goes through `_make_request`. It classifies a response as a body,
as `{}` for 204, or as `FailedRequestError`. `get_attributes` turns any
`FailedRequestError` into `NoUserData`.

The model has seven modules:

- **PyJson**: decoded JSON values and the Python operations the module applies
  to them: `v[key]`, `v[0]`, `key in v`, truthiness, iteration and `str()`.
  Each operation raises the exception Python raises.
- **Registry**: the requests, the responses, and `_make_request`'s
  classification. The registry is an oracle, a function from request to
  response.
- **FirstMatch**: the early-exit search that the name, email and identifier
  loops share. It also covers the link scan.
- **Harvest**: the four fragment builders, as functions of a response body.
- **Resolution**: each stage as a function returning a `Run`, which is the
  outcome together with the requests issued, in order. It also holds the
  lemmas about the whole chain.
- **Comanage**: the class with its immutable configuration. Its methods
  mirror the Python methods, and each is proved to compute exactly the
  corresponding `Run`. The `try` body of `get_attributes`, its `if org_id:`
  branch, its four `update` calls and the `for` loop of `_get_person_id` are
  separate methods. This keeps each proof small.
- **Scenarios**: the exchanges of tests/s2sproxy_module/test_comanage.py
  stated as lemmas, plus a few cases built from the source: a passed-over
  entry before the match, a body without CoGroups and a person in another CO.

The model follows the code in four places where the module's documented
intent reads differently:

- A 204 on the org identities query or on the identity-links query leaves
  `{}`, and subscripting it raises KeyError, which escapes `get_attributes`
  uncaught. A 204 on the person-record query does the same. Only the four
  harvesting queries treat 204 as "nothing found".
- When no link yields a CO person, `_get_person_id` returns None and the four
  harvesting queries still run, with the text "None" as the person id. Only a
  falsy org id skips them.
- The default email rule is `re.compile('official|delivery').search`, so it
  accepts any type containing either word, not only "official".
- The harvesting queries run one after another. The first exception stops the
  rest and discards fragments already obtained.

Every model function is deterministic, so repeating `get_attributes` with the
same IdP attributes against an unchanged registry gives the same result and
the same requests.

## Model

| member | source | states |
|---|---|---|
| PyJson.Truthy | src/s2sproxy_module/comanage.py:58 | a value is false exactly when it is None, False, "", [] or {} |
| PyJson.Subscript | src/s2sproxy_module/comanage.py:90 | `v[key]` succeeds exactly on a dict holding the key, with that entry; a dict without the key raises KeyError(key), anything else TypeError |
| PyJson.Index0 | src/s2sproxy_module/comanage.py:114 | `v[0]` of a non-empty list is its head; every failure is a lookup error (IndexError, KeyError or TypeError) |
| PyJson.Contains | src/s2sproxy_module/comanage.py:121 | `key in d` on a dict is key membership; only TypeError can be raised |
| PyJson.Iterate | src/s2sproxy_module/comanage.py:103 | a `for` loop over a list visits its items in order; only TypeError can be raised |
| Registry.Classify | src/s2sproxy_module/comanage.py:180-192 | a body is returned exactly for 200 with a JSON body or 204. For 200 it is the body, for 204 it is {}. A 200 without JSON raises the decode error. Every other status and every transport failure is FailedRequestError; a transport failure keeps the exception's message |
| Registry.StatusFailureNamesStatusAndText | src/s2sproxy_module/comanage.py:189-192 | for any status other than 200 and 204 the error message is "status: text", and both the status and the text can be read back from it |
| Registry.ParseDecimalInvertsDecimal | src/s2sproxy_module/comanage.py:190-192 | the decimal rendering of a status code reads back as that code |
| FirstMatch.FindFirst | src/s2sproxy_module/comanage.py:122-131 | the early-exit loop returns the first entry that passes, None exactly when every entry was tested and failed, or the first exception a test raised |
| FirstMatch.FindFirstReturnsFirstPass | src/s2sproxy_module/comanage.py:141-144 | when entry i is the first to pass, the loop returns exactly i |
| FirstMatch.FindFirstRaisesFirstError | src/s2sproxy_module/comanage.py:155-158 | when testing entry i raises after all earlier entries failed, the loop raises that exception |
| Harvest.FirstEntryFragment | src/s2sproxy_module/comanage.py:121-132 | the shared harvest shape. An empty body gives {}. A non-empty fragment is built from some entry. Failures come from a lookup, the test or the builder |
| Harvest.FirstEntryRaisesFirstError | src/s2sproxy_module/comanage.py:120-123 | an exception from the test on an entry before any passing one escapes as the fragment's exception |
| Harvest.FirstEntryPicksFirstMatch | src/s2sproxy_module/comanage.py:121-130 | with the entries listed under the key, the fragment is built from the first entry that passes the test |
| Harvest.FirstEntryEmptyWithoutMatch | src/s2sproxy_module/comanage.py:121-132 | without the key, or with no entry passing, the fragment is {} |
| Harvest.PrimaryFlag | src/s2sproxy_module/comanage.py:123 | an entry with a PrimaryName passes exactly when that value is truthy; a dict entry without PrimaryName raises KeyError("PrimaryName") and a non-dict entry raises TypeError, both uncaught |
| Harvest.NameAttributes | src/s2sproxy_module/comanage.py:124-130 | succeeds exactly when the entry has Given and Family, copying them to givenName and sn, with displayName str(givenName) + " " + str(sn); a missing Given, then a missing Family, raises KeyError for it |
| Harvest.NameFragment | src/s2sproxy_module/comanage.py:116-132 | a 204 body gives {}; a non-empty fragment has exactly the three name keys with the joined display name; failures are lookup errors |
| Harvest.NamePicksFirstPrimary | src/s2sproxy_module/comanage.py:121-130 | the first entry flagged primary gives {givenName: Given, sn: Family, displayName: "Given Family"} |
| Harvest.EmailTypeMatches | src/s2sproxy_module/comanage.py:142-143 | an entry whose Type is a string passes exactly when the configured pattern matches it; a non-string Type or a non-dict entry raises TypeError; a dict entry without Type raises KeyError("Type") |
| Harvest.MailAttributes | src/s2sproxy_module/comanage.py:144 | succeeds exactly when the entry has Mail, giving {mail: entry["Mail"]}; a missing Mail raises KeyError("Mail") |
| Harvest.EmailFragment | src/s2sproxy_module/comanage.py:134-146 | a 204 body gives {}; the fragment's keys are within {mail}; failures are lookup errors |
| Harvest.EmailPicksFirstMatchingType | src/s2sproxy_module/comanage.py:140-144 | the first entry whose Type the pattern accepts gives {mail: Mail} |
| Harvest.IdentifierTypeIs | src/s2sproxy_module/comanage.py:156 | an identifier with a Type passes exactly when that Type equals the configured VO identifier type; a dict entry without Type raises KeyError("Type") and a non-dict entry raises TypeError |
| Harvest.UidAttributes | src/s2sproxy_module/comanage.py:157 | succeeds exactly when the entry has Identifier, giving {uid: entry["Identifier"]}; a missing Identifier raises KeyError("Identifier") |
| Harvest.VoFragment | src/s2sproxy_module/comanage.py:148-159 | a 204 body gives {}; the fragment's keys are within {uid}; failures are lookup errors |
| Harvest.VoPicksFirstIdentifierOfType | src/s2sproxy_module/comanage.py:154-157 | the first identifier whose Type equals the configured VO type gives {uid: Identifier} |
| Harvest.GroupNames | src/s2sproxy_module/comanage.py:167 | the comprehension keeps every entry's Name in order and with the same length. It succeeds whenever every entry has a Name; otherwise it raises the error of the first entry without one |
| Harvest.GroupFragment | src/s2sproxy_module/comanage.py:161-169 | a dict body without CoGroups (the 204 body included) gives {}; the only key is the membership attribute name; failures are lookup errors |
| Harvest.GroupFragmentRaisesAtFirstUnnamed | src/s2sproxy_module/comanage.py:166-167 | with CoGroups listed, the first entry without a Name makes the fragment raise its lookup error |
| Harvest.GroupsListEveryName | src/s2sproxy_module/comanage.py:166-167 | with every entry named, the fragment maps the membership attribute to the list of all names, in order and unfiltered |
| Resolution.UserId | src/s2sproxy_module/comanage.py:75-82 | the first value of the IdP attribute. Exactly a missing attribute raises NoUserData with the fixed message. An empty value list raises IndexError, which is not caught |
| Resolution.MissingAttributeMessageNamesIt | src/s2sproxy_module/comanage.py:79-82 | the NoUserData message for a missing attribute contains the attribute's name |
| Resolution.OrgIdOf | src/s2sproxy_module/comanage.py:90-94 | a dict body without OrgIdentities, a 204 among others, raises KeyError("OrgIdentities"); an empty list gives None; otherwise the first identity's Id; failures are lookup errors |
| Resolution.PersonInCo | src/s2sproxy_module/comanage.py:114 | a dict body without CoPeople, a 204 among others, raises KeyError("CoPeople"). An empty person list raises IndexError, since `[0]` is unguarded. A first record without CoId raises KeyError("CoId"). Otherwise the check is whether the first record's CoId equals the configured CO |
| Resolution.ScanStopsAtFirstMember | src/s2sproxy_module/comanage.py:103-106 | when link i is the first whose person is in the CO, the scan returns its CoPersonId after exactly one membership request for each of links 0..i and none after |
| Resolution.ScanWithoutMember | src/s2sproxy_module/comanage.py:103-106 | when no link passes, the scan returns None after exactly one membership request per link |
| Resolution.ScanRaisesFirstError | src/s2sproxy_module/comanage.py:103-106 | when checking link i raises first, the scan raises that exception. Its trace has one request per earlier link, plus link i's own request when its CoPersonId could be read |
| Resolution.ScanStopsAtFirstFailure | src/s2sproxy_module/comanage.py:103-106 | every membership request but the last was answered, and a failed last request's error is the scan's |
| Resolution.PersonIdRunStopsAtFirstFailure | src/s2sproxy_module/comanage.py:96-106 | the same holds for the links query followed by the scan |
| Resolution.HarvestSucceeded | src/s2sproxy_module/comanage.py:63-66 | a successful harvest issued exactly the four queries, all four fragments succeeded, and the result is {} updated by them in source order |
| Resolution.HarvestStartsWithNames | src/s2sproxy_module/comanage.py:63 | the harvest always issues the names query first and at most four queries |
| Resolution.FragmentKeys | src/s2sproxy_module/comanage.py:116-169 | each fragment uses only its own attribute names |
| Resolution.HarvestIsUnionOfFragments | src/s2sproxy_module/comanage.py:63-66 | when all four fragments succeed, the harvest succeeds after the four queries. Its keys are the union of theirs for any group attribute name, and when that name is distinct from the other five no fragment's entry is overwritten |
| Resolution.HarvestStopsAtFirstFailure | src/s2sproxy_module/comanage.py:63-66 | the harvesting queries stop at the first failed one, whose error is the harvest's |
| Resolution.ChainFromOrgStopsAtFirstFailure | src/s2sproxy_module/comanage.py:58-66 | the person lookup followed by the harvest stops at its first failed request |
| Resolution.ChainStopsAtFirstFailure | src/s2sproxy_module/comanage.py:44-66 | the `try` body issues no request when the user id fails. Otherwise every request but the last was answered, and a failed last request's error is the outcome |
| Resolution.RegistryFailureBecomesNoUserData | src/s2sproxy_module/comanage.py:68-70 | no FailedRequestError leaves get_attributes, and a failed request surfaces as NoUserData("Failed to fetch user attributes: " + its message). Every NoUserData comes from the missing IdP attribute or from the failed last request |
| Resolution.MissingAttributeFailsBeforeAnyRequest | src/s2sproxy_module/comanage.py:41-49 | without the configured IdP attribute, get_attributes raises NoUserData naming it, before any request |
| Resolution.FalsyOrgIdShortCircuits | src/s2sproxy_module/comanage.py:57-59 | a falsy org id gives {} after exactly the one org identities query |
| Resolution.SuccessIssuesOneOrAllQueries | src/s2sproxy_module/comanage.py:53-66 | a successful resolution sent the org identities query first; a falsy org id then returns {} after that query alone, and a truthy one sent the links query second and the four harvesting queries, for the person found, last |
| Resolution.OrgBranchSuccessSendsAll | src/s2sproxy_module/comanage.py:58-66 | a successful `if org_id:` branch sent the links query first and the four harvesting queries, for the person found, last |
| Resolution.UnresolvedPersonStillHarvests | src/s2sproxy_module/comanage.py:58-66 | when the person lookup yields None, the next request after it is the names query with copersonid "None" |
| Resolution.OrgNoContentRaisesKeyError | src/s2sproxy_module/comanage.py:90 | a 204 on the org identities query ends get_attributes with KeyError("OrgIdentities"), not NoUserData |
| Resolution.LinksNoContentRaisesKeyError | src/s2sproxy_module/comanage.py:103 | a links-query body without CoOrgIdentityLinks, a 204 among others, raises KeyError("CoOrgIdentityLinks") after that one query |
| Resolution.HarvestNoContentIsEmpty | src/s2sproxy_module/comanage.py:187-188 | a 204 on any harvesting query gives an empty fragment |
| Resolution.OutboundKeys | src/s2sproxy_module/comanage.py:63-66 | the returned attributes are within givenName, sn, displayName, mail, uid and the membership attribute name |
| Resolution.HarvestKeys | src/s2sproxy_module/comanage.py:58-66 | the same bound for the `if org_id:` branch |
| Comanage.COmanageAttributeModule.constructor | src/s2sproxy_module/comanage.py:17-39 | stores the registry and the configuration, with the default email rule and membership attribute name |
| Comanage.COmanageAttributeModule.GetAttributes | src/s2sproxy_module/comanage.py:41-73 | returns exactly the outcome and request trace of the resolution with FailedRequestError translated |
| Comanage.COmanageAttributeModule.TryBlock | src/s2sproxy_module/comanage.py:44-66 | computes exactly the outcome and trace of the `try` body |
| Comanage.COmanageAttributeModule.AttributesForOrg | src/s2sproxy_module/comanage.py:58-66 | computes exactly the outcome and trace of the `if org_id:` branch |
| Comanage.COmanageAttributeModule.UpdateWithFragments | src/s2sproxy_module/comanage.py:63-66 | computes exactly the outcome and trace of the four updates |
| Comanage.COmanageAttributeModule.GetOrgId | src/s2sproxy_module/comanage.py:84-94 | sends the one org identities query with coid and search_identifier and returns the org id read from its body |
| Comanage.COmanageAttributeModule.GetPersonId | src/s2sproxy_module/comanage.py:96-106 | computes exactly the outcome and trace of the links query and the scan |
| Comanage.COmanageAttributeModule.FirstLinkInCo | src/s2sproxy_module/comanage.py:103-106 | the loop computes exactly the scan's outcome and trace |
| Comanage.COmanageAttributeModule.PersonIdInCo | src/s2sproxy_module/comanage.py:108-114 | sends the one person-record query and returns the membership check on its body |
| Comanage.COmanageAttributeModule.GetNameInfo | src/s2sproxy_module/comanage.py:116-132 | sends the one names query and returns the name fragment of its body |
| Comanage.COmanageAttributeModule.GetEmailAddress | src/s2sproxy_module/comanage.py:134-146 | sends the one email query and returns the email fragment of its body |
| Comanage.COmanageAttributeModule.GetVoInfo | src/s2sproxy_module/comanage.py:148-159 | sends the one identifiers query and returns the VO fragment of its body |
| Comanage.COmanageAttributeModule.GetGroupInfo | src/s2sproxy_module/comanage.py:161-169 | sends the one groups query and returns the group fragment of its body |
| Comanage.COmanageAttributeModule.MakeRequest | src/s2sproxy_module/comanage.py:171-192 | sends exactly the one request and returns its classification |
| Scenarios.UserIdFromIdpAttribute | tests/s2sproxy_module/test_comanage.py:195-199 | eduPersonPrincipalName ["foo@example.com"] gives "foo@example.com" |
| Scenarios.OrgIdFromFirstIdentity | tests/s2sproxy_module/test_comanage.py:36-46 | the identity query for "foobar" in CO 15, answered with {"OrgIdentities": [{"Id": "123"}]}, gives "123" |
| Scenarios.PersonRecordInCo | tests/s2sproxy_module/test_comanage.py:77-90 | a person record with CoId "15" passes for CO 15 and fails for CO 99 |
| Scenarios.PersonIdFromSingleLink | tests/s2sproxy_module/test_comanage.py:48-75 | the link query for org identity 123 returns one link to person 456 in CO 15, which resolves to "456" after the link query and one person-record query |
| Scenarios.PersonIdNotFoundInOtherCo | tests/s2sproxy_module/test_comanage.py:48-75 | the same exchange with the person in CO 99 resolves to None after the same two queries |
| Scenarios.PrimaryNameOfDonaldDuck | tests/s2sproxy_module/test_comanage.py:92-117 | Donald Duck's primary name gives displayName "Donald Duck" |
| Scenarios.OfficialEmailAddress | tests/s2sproxy_module/test_comanage.py:119-135 | an "official" address is selected by the default rule |
| Scenarios.VoIdentifier | tests/s2sproxy_module/test_comanage.py:137-153 | the voIdentifier VO1111 becomes uid |
| Scenarios.VoIdentifierAfterOtherType | src/s2sproxy_module/comanage.py:153-156 | an identifier of another type listed before the voIdentifier one is passed over |
| Scenarios.PrimaryNameAfterNickname | src/s2sproxy_module/comanage.py:120-129 | a non-primary name listed before the primary one is passed over |
| Scenarios.NoGroupsListed | src/s2sproxy_module/comanage.py:166-169 | a body without CoGroups gives no membership attribute |
| Scenarios.BothGroupNames | tests/s2sproxy_module/test_comanage.py:155-170 | both group names are listed in order under the default membership attribute |
| Scenarios.ConnectionErrorFails | tests/s2sproxy_module/test_comanage.py:172-181 | a connection error becomes FailedRequestError with its message |

## Left out

- The HTTP transport, Basic authentication and the base URL are replaced by
  the registry oracle. A request is its path and its query pairs.
- `urllib.parse.urlencode` and URL assembly: query values are modelled after
  `str()`, but not percent-encoded. Two distinct requests stay distinct either way.
- JSON decoding is not modelled. A response carries an optional decoded body,
  and a 200 without one raises the decode error. JSON numbers are not
  represented, because registry identifiers arrive as strings.
- Requests exceptions other than `RequestException`, raised by the transport
  itself, are not modelled.
- The regular-expression engine: the email rule is a configured predicate on
  the Type string. The default `official|delivery` search is modelled as
  "contains either word".
- Logging has no effect on behaviour and is not modelled.
- The `AttributeModule` base class and `NoUserData` come from the host
  framework and are not part of this model. `NoUserData` is an error variant.
- PyJson.PyStr renders None, booleans, strings and lists of them, but a
  string inside a list is always written between single quotes as it stands.
  Python's `repr` doubles backslashes, escapes control and non-printable
  characters, and uses double quotes for a string that contains `'` and no
  `"`; the model does none of this. It renders a non-empty dict as a fixed
  placeholder. Both appear only in URLs and
  displayName when the registry sends such values.
- PyJson.Iterate raises TypeError at a loop over a non-empty dict instead of
  at its first key. Every loop in the module subscripts its element by a
  string key first, so the exception and the requests issued are the same.
  Key order is not modelled.
- PyJson.Index0 reports `d[0]` on a dict as KeyError("0"). Python's key is the
  integer 0.
- The configured `co_id` is a string, compared with the JSON `CoId` string. A
  `co_id` configured as an integer would never equal a JSON string; that case
  is not modelled.
- The test fixture omits the required `vo_identifier_type` argument, and the
  group test expects the key "isMemberOf". The model follows the code: the
  argument is required, and the default key is
  "urn:oid:1.3.6.1.4.1.5923.1.5.1.1".
