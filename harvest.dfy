/** The four attribute fragments harvested for a CO person
    (comanage.py, `_get_name_info`, `_get_email_address`, `_get_vo_info`,
    `_get_group_info`): each turns the body of one registry response into a
    flat map of outbound attributes. */
module Harvest {
  import opened PyJson
  import opened FirstMatch

  /** An outbound attribute set: attribute name to a string or a list of strings. */
  type Attrs = map<string, Value>

  const NameKeys: set<string> := {"givenName", "sn", "displayName"}

  /** The shape shared by the name, email and identifier fragments: when the
      body has `listKey`, walk its entries in order and build the fragment
      from the first entry that passes `test`; otherwise the fragment is empty. */
  function FirstEntryFragment(body: Value, listKey: string,
                              test: Value -> Result<bool>, build: Value -> Result<Attrs>): (r: Result<Attrs>)
    ensures body == Obj(map[]) ==> r == Ok(map[])
    ensures r.Ok? && r.value != map[] ==> exists e :: build(e) == r
    ensures r.Raise? ==>
      || IsLookupError(r.error)
      || (exists e :: test(e) == Raise(r.error))
      || (exists e :: build(e) == r)
  {
    var present :- Contains(body, listKey);
    if !present then Ok(map[])
    else
      var list :- Subscript(body, listKey);
      var entries :- Iterate(list);
      var found :- FindFirst(entries, test);
      if found.None? then Ok(map[])
      else
        var e := entries[found.value];
        assert test(e) == Ok(true);
        build(e)
  }

  /** With the entries listed under `listKey`, the fragment is built from the
      first entry that passes the test. */
  lemma FirstEntryPicksFirstMatch(fields: map<string, Value>, listKey: string, entries: seq<Value>,
                                  test: Value -> Result<bool>, build: Value -> Result<Attrs>, i: int)
    requires listKey in fields && fields[listKey] == List(entries)
    requires FirstPasses(entries, test, i)
    ensures FirstEntryFragment(Obj(fields), listKey, test, build) == build(entries[i])
  {
    FindFirstReturnsFirstPass(entries, test, i);
  }

  /** An exception from the test on an entry before any passing one escapes:
      the fragment raises it. */
  lemma FirstEntryRaisesFirstError(fields: map<string, Value>, listKey: string, entries: seq<Value>,
                                   test: Value -> Result<bool>, build: Value -> Result<Attrs>, i: int, e: Error)
    requires listKey in fields && fields[listKey] == List(entries)
    requires FirstRaises(entries, test, i, e)
    ensures FirstEntryFragment(Obj(fields), listKey, test, build) == Raise(e)
  {
    FindFirstRaisesFirstError(entries, test, i, e);
  }

  /** Without `listKey`, or with no entry passing the test, the fragment is empty. */
  lemma FirstEntryEmptyWithoutMatch(fields: map<string, Value>, listKey: string, entries: seq<Value>,
                                    test: Value -> Result<bool>, build: Value -> Result<Attrs>)
    requires listKey !in fields || (fields[listKey] == List(entries) && NonePass(entries, test))
    ensures FirstEntryFragment(Obj(fields), listKey, test, build) == Ok(map[])
  {
  }

  // ---- name: the primary name, with a display name joined from its parts

  /** `entry["PrimaryName"]`, read as a Python condition. */
  function PrimaryFlag(entry: Value): (r: Result<bool>)
    ensures entry.Obj? && "PrimaryName" in entry.fields ==> r == Ok(Truthy(entry.fields["PrimaryName"]))
    ensures entry.Obj? && "PrimaryName" !in entry.fields ==> r == Raise(KeyError("PrimaryName"))
    ensures !entry.Obj? ==> r == Raise(TypeError)
    ensures r.Raise? ==> IsLookupError(r.error)
  {
    var flag :- Subscript(entry, "PrimaryName");
    Ok(Truthy(flag))
  }

  /** givenName and sn copied from the entry, displayName formatted as "{gn} {sn}". */
  function NameAttributes(entry: Value): (r: Result<Attrs>)
    ensures r.Ok? <==> entry.Obj? && "Given" in entry.fields && "Family" in entry.fields
    ensures r.Ok? ==> r.value.Keys == NameKeys
    ensures r.Ok? ==> r.value["givenName"] == entry.fields["Given"] && r.value["sn"] == entry.fields["Family"]
    ensures entry.Obj? && "Given" !in entry.fields ==> r == Raise(KeyError("Given"))
    ensures entry.Obj? && "Given" in entry.fields && "Family" !in entry.fields ==> r == Raise(KeyError("Family"))
    ensures r.Ok? ==> r.value["displayName"] == Str(PyStr(r.value["givenName"]) + " " + PyStr(r.value["sn"]))
    ensures r.Raise? ==> IsLookupError(r.error)
  {
    var gn :- Subscript(entry, "Given");
    var sn :- Subscript(entry, "Family");
    Ok(map["givenName" := gn, "sn" := sn, "displayName" := Str(PyStr(gn) + " " + PyStr(sn))])
  }

  function NameFragment(body: Value): (r: Result<Attrs>)
    ensures body == Obj(map[]) ==> r == Ok(map[])
    ensures r.Ok? && r.value != map[] ==>
      && r.value.Keys == NameKeys
      && r.value["displayName"] == Str(PyStr(r.value["givenName"]) + " " + PyStr(r.value["sn"]))
    ensures r.Raise? ==> IsLookupError(r.error)
  {
    FirstEntryFragment(body, "Names", PrimaryFlag, NameAttributes)
  }

  lemma NamePicksFirstPrimary(fields: map<string, Value>, entries: seq<Value>, i: int, given: Value, family: Value)
    requires "Names" in fields && fields["Names"] == List(entries)
    requires FirstPasses(entries, PrimaryFlag, i)
    requires Subscript(entries[i], "Given") == Ok(given) && Subscript(entries[i], "Family") == Ok(family)
    ensures NameFragment(Obj(fields))
         == Ok(map["givenName" := given, "sn" := family, "displayName" := Str(PyStr(given) + " " + PyStr(family))])
  {
    FirstEntryPicksFirstMatch(fields, "Names", entries, PrimaryFlag, NameAttributes, i);
  }

  // ---- email: the first address whose type the configured pattern matches

  /** `email_re_object.search(entry["Type"])`: the pattern only accepts strings. */
  function EmailTypeMatches(matches: string -> bool, entry: Value): (r: Result<bool>)
    ensures entry.Obj? && "Type" in entry.fields && entry.fields["Type"].Str? ==>
      r == Ok(matches(entry.fields["Type"].s))
    ensures entry.Obj? && "Type" in entry.fields && !entry.fields["Type"].Str? ==> r == Raise(TypeError)
    ensures entry.Obj? && "Type" !in entry.fields ==> r == Raise(KeyError("Type"))
    ensures !entry.Obj? ==> r == Raise(TypeError)
    ensures r.Raise? ==> IsLookupError(r.error)
  {
    var t :- Subscript(entry, "Type");
    if t.Str? then Ok(matches(t.s)) else Raise(TypeError)
  }

  function EmailTypeTest(matches: string -> bool): Value -> Result<bool> {
    entry => EmailTypeMatches(matches, entry)
  }

  function MailAttributes(entry: Value): (r: Result<Attrs>)
    ensures r.Ok? <==> entry.Obj? && "Mail" in entry.fields
    ensures r.Ok? ==> r.value.Keys == {"mail"} && r.value["mail"] == entry.fields["Mail"]
    ensures entry.Obj? && "Mail" !in entry.fields ==> r == Raise(KeyError("Mail"))
    ensures r.Raise? ==> IsLookupError(r.error)
  {
    var mail :- Subscript(entry, "Mail");
    Ok(map["mail" := mail])
  }

  function EmailFragment(body: Value, matches: string -> bool): (r: Result<Attrs>)
    ensures body == Obj(map[]) ==> r == Ok(map[])
    ensures r.Ok? ==> r.value.Keys <= {"mail"}
    ensures r.Raise? ==> IsLookupError(r.error)
  {
    FirstEntryFragment(body, "EmailAddresses", EmailTypeTest(matches), MailAttributes)
  }

  lemma EmailPicksFirstMatchingType(fields: map<string, Value>, entries: seq<Value>,
                                    matches: string -> bool, i: int, mail: Value)
    requires "EmailAddresses" in fields && fields["EmailAddresses"] == List(entries)
    requires FirstPasses(entries, EmailTypeTest(matches), i)
    requires Subscript(entries[i], "Mail") == Ok(mail)
    ensures EmailFragment(Obj(fields), matches) == Ok(map["mail" := mail])
  {
    FirstEntryPicksFirstMatch(fields, "EmailAddresses", entries, EmailTypeTest(matches), MailAttributes, i);
  }

  // ---- VO identifier: the first identifier of the configured type

  function IdentifierTypeIs(voIdentifierType: string, entry: Value): (r: Result<bool>)
    ensures entry.Obj? && "Type" in entry.fields ==> r == Ok(entry.fields["Type"] == Str(voIdentifierType))
    ensures entry.Obj? && "Type" !in entry.fields ==> r == Raise(KeyError("Type"))
    ensures !entry.Obj? ==> r == Raise(TypeError)
    ensures r.Raise? ==> IsLookupError(r.error)
  {
    var t :- Subscript(entry, "Type");
    Ok(t == Str(voIdentifierType))
  }

  function IdentifierTypeTest(voIdentifierType: string): Value -> Result<bool> {
    entry => IdentifierTypeIs(voIdentifierType, entry)
  }

  function UidAttributes(entry: Value): (r: Result<Attrs>)
    ensures r.Ok? <==> entry.Obj? && "Identifier" in entry.fields
    ensures r.Ok? ==> r.value.Keys == {"uid"} && r.value["uid"] == entry.fields["Identifier"]
    ensures entry.Obj? && "Identifier" !in entry.fields ==> r == Raise(KeyError("Identifier"))
    ensures r.Raise? ==> IsLookupError(r.error)
  {
    var id :- Subscript(entry, "Identifier");
    Ok(map["uid" := id])
  }

  function VoFragment(body: Value, voIdentifierType: string): (r: Result<Attrs>)
    ensures body == Obj(map[]) ==> r == Ok(map[])
    ensures r.Ok? ==> r.value.Keys <= {"uid"}
    ensures r.Raise? ==> IsLookupError(r.error)
  {
    FirstEntryFragment(body, "Identifiers", IdentifierTypeTest(voIdentifierType), UidAttributes)
  }

  lemma VoPicksFirstIdentifierOfType(fields: map<string, Value>, entries: seq<Value>,
                                     voIdentifierType: string, i: int, id: Value)
    requires "Identifiers" in fields && fields["Identifiers"] == List(entries)
    requires FirstPasses(entries, IdentifierTypeTest(voIdentifierType), i)
    requires Subscript(entries[i], "Identifier") == Ok(id)
    ensures VoFragment(Obj(fields), voIdentifierType) == Ok(map["uid" := id])
  {
    FirstEntryPicksFirstMatch(fields, "Identifiers", entries, IdentifierTypeTest(voIdentifierType), UidAttributes, i);
  }

  // ---- groups: every group name, in order, under one multi-valued attribute

  /** `[entry["Name"] for entry in entries]`. */
  function GroupNames(entries: seq<Value>): (r: Result<seq<Value>>)
    ensures r.Ok? ==> |r.value| == |entries|
    ensures r.Ok? ==> forall k :: 0 <= k < |entries| ==> Subscript(entries[k], "Name") == Ok(r.value[k])
    ensures (forall k :: 0 <= k < |entries| ==> Subscript(entries[k], "Name").Ok?) ==> r.Ok?
    ensures r.Raise? ==> exists k :: FirstWithoutName(entries, k) && Subscript(entries[k], "Name") == Raise(r.error)
    decreases |entries|
  {
    if entries == [] then Ok([])
    else
      var name :- Subscript(entries[0], "Name");
      var rest := GroupNames(entries[1..]);
      if rest.Raise? then
        assert exists k :: FirstWithoutName(entries, k) && Subscript(entries[k], "Name") == Raise(rest.error) by {
          var k :| FirstWithoutName(entries[1..], k) && Subscript(entries[1..][k], "Name") == Raise(rest.error);
          assert entries[1..][k] == entries[k + 1];
          forall j | 0 <= j < k + 1 ensures Subscript(entries[j], "Name").Ok? {
            if j > 0 {
              assert entries[j] == entries[1..][j - 1];
            }
          }
          assert FirstWithoutName(entries, k + 1);
        }
        Raise(rest.error)
      else
        Ok([name] + rest.value)
  }

  /** Entry `k` is the first one without a readable Name. */
  ghost predicate FirstWithoutName(entries: seq<Value>, k: int) {
    && 0 <= k < |entries|
    && Subscript(entries[k], "Name").Raise?
    && forall j :: 0 <= j < k ==> Subscript(entries[j], "Name").Ok?
  }

  function GroupFragment(body: Value, membershipAttributeSamlName: string): (r: Result<Attrs>)
    ensures body.Obj? && "CoGroups" !in body.fields ==> r == Ok(map[])
    ensures r.Ok? ==> r.value.Keys <= {membershipAttributeSamlName}
    ensures r.Raise? ==> IsLookupError(r.error)
  {
    var present :- Contains(body, "CoGroups");
    if !present then Ok(map[])
    else
      var groups :- Subscript(body, "CoGroups");
      var entries :- Iterate(groups);
      var names :- GroupNames(entries);
      Ok(map[membershipAttributeSamlName := List(names)])
  }

  /** A group entry without a Name, all earlier ones named, makes the fragment
      raise that entry's lookup error. */
  lemma GroupFragmentRaisesAtFirstUnnamed(fields: map<string, Value>, entries: seq<Value>,
                                          membershipAttributeSamlName: string, k: int)
    requires "CoGroups" in fields && fields["CoGroups"] == List(entries)
    requires FirstWithoutName(entries, k)
    ensures GroupFragment(Obj(fields), membershipAttributeSamlName) == Raise(Subscript(entries[k], "Name").error)
  {
    var r := GroupNames(entries);
    if r.Raise? {
      var k' :| FirstWithoutName(entries, k') && Subscript(entries[k'], "Name") == Raise(r.error);
      assert k' == k;
    }
  }

  /** Every group listed, in order, with no filtering. */
  lemma GroupsListEveryName(fields: map<string, Value>, entries: seq<Value>, membershipAttributeSamlName: string)
    requires "CoGroups" in fields && fields["CoGroups"] == List(entries)
    requires forall k :: 0 <= k < |entries| ==> Subscript(entries[k], "Name").Ok?
    ensures var r := GroupFragment(Obj(fields), membershipAttributeSamlName);
      && r.Ok? && r.value.Keys == {membershipAttributeSamlName}
      && var names := r.value[membershipAttributeSamlName];
      && names.List? && |names.items| == |entries|
      && forall k :: 0 <= k < |entries| ==> Subscript(entries[k], "Name") == Ok(names.items[k])
  {
  }
}
