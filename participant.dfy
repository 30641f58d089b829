/** StudyParticipant: a participant record with an open-ended attribute bag, and its Builder. */
module Accounts {
  import opened Wrappers
  import opened Text

  /** The SharingScope enum; its constants are not part of this model, only their identity. */
  datatype SharingScope = SharingScope(constant: string)

  /** The Roles enum, likewise. */
  datatype Role = Role(constant: string)

  /** A UserConsentHistory, compared by value; its fields are not part of this model. */
  datatype UserConsentHistory = UserConsentHistory(record: string)

  /** A LinkedHashSet<String>: insertion order, no duplicates. */
  type LinkedSet = s: seq<string> | forall i, j :: 0 <= i < j < |s| ==> s[i] != s[j] witness []

  function Elements(s: Option<LinkedSet>): Option<set<string>> {
    match s
    case None => None
    case Some(l) => Some(set x | x in l)
  }

  /** The attribute map after setAttribute(name, value): the pair goes in only when both are not blank. */
  function PutIfNotBlank(attributes: map<string, string>, name: Option<string>, value: Option<string>): (r: map<string, string>)
    ensures attributes.Keys <= r.Keys
    ensures r.Keys - attributes.Keys <= if name.Some? then {name.value} else {}
  {
    if IsNotBlank(name) && IsNotBlank(value) then attributes[name.value := value.value] else attributes
  }

  /** A blank name or value leaves the map as it was; otherwise the value overwrites any earlier one
      and every other entry is kept. */
  lemma PutIfNotBlankMeans(attributes: map<string, string>, name: Option<string>, value: Option<string>)
    ensures IsBlank(name) || IsBlank(value) ==> PutIfNotBlank(attributes, name, value) == attributes
    ensures IsNotBlank(name) && IsNotBlank(value) ==>
      var r := PutIfNotBlank(attributes, name, value);
      && name.value in r && r[name.value] == value.value
      && r.Keys == attributes.Keys + {name.value}
      && forall n :: n in attributes && n != name.value ==> r[n] == attributes[n]
  {
  }

  /** A whitespace-only name is blank, so nothing is stored under it. */
  lemma WhitespaceNameIgnored(attributes: map<string, string>, name: string, value: Option<string>)
    requires forall i :: 0 <= i < |name| ==> IsWhitespace(name[i])
    ensures PutIfNotBlank(attributes, Some(name), value) == attributes
  {
  }

  /** The fields equals compares, as values: a LinkedHashSet compares as a set. */
  datatype Fields = Fields(
    attributes: map<string, string>,
    consentHistories: Option<map<string, seq<UserConsentHistory>>>,
    dataGroups: Option<set<string>>,
    email: Option<string>,
    externalId: Option<string>,
    firstName: Option<string>,
    healthCode: Option<string>,
    languages: Option<set<string>>,
    lastName: Option<string>,
    notifyByEmail: bool,
    roles: Option<set<Role>>,
    sharingScope: Option<SharingScope>)

  class StudyParticipant {
    const firstName: Option<string>
    const lastName: Option<string>
    const externalId: Option<string>
    const sharingScope: Option<SharingScope>
    const notifyByEmail: bool
    const email: Option<string>
    const dataGroups: Option<set<string>>
    const healthCode: Option<string>
    const consentHistories: Option<map<string, seq<UserConsentHistory>>>
    const roles: Option<set<Role>>
    const languages: Option<LinkedSet>
    var attributes: map<string, string>

    /** Eleven fields stored as given; the attributes are a copy of the argument, unfiltered, or empty for null. */
    constructor (firstName: Option<string>, lastName: Option<string>, email: Option<string>,
                 externalId: Option<string>, sharingScope: Option<SharingScope>, notifyByEmail: bool,
                 dataGroups: Option<set<string>>, healthCode: Option<string>,
                 attributes: Option<map<string, string>>,
                 consentHistories: Option<map<string, seq<UserConsentHistory>>>,
                 roles: Option<set<Role>>, languages: Option<LinkedSet>)
      ensures this.firstName == firstName && this.lastName == lastName && this.email == email
      ensures this.externalId == externalId && this.sharingScope == sharingScope
      ensures this.notifyByEmail == notifyByEmail && this.dataGroups == dataGroups
      ensures this.healthCode == healthCode && this.consentHistories == consentHistories
      ensures this.roles == roles && this.languages == languages
      ensures this.attributes == if attributes.Some? then attributes.value else map[]
    {
      this.firstName := firstName;
      this.lastName := lastName;
      this.externalId := externalId;
      this.sharingScope := sharingScope;
      this.notifyByEmail := notifyByEmail;
      this.email := email;
      this.dataGroups := dataGroups;
      this.healthCode := healthCode;
      this.consentHistories := consentHistories;
      this.roles := roles;
      this.languages := languages;
      this.attributes := map[];
      new;
      if attributes.Some? {
        this.attributes := this.attributes + attributes.value;
      }
    }

    method SetAttribute(name: Option<string>, value: Option<string>)
      modifies this
      ensures attributes == PutIfNotBlank(old(attributes), name, value)
    {
      if IsNotBlank(name) && IsNotBlank(value) {
        attributes := attributes[name.value := value.value];
      }
    }

    function View(): Fields
      reads this
    {
      Fields(attributes, consentHistories, dataGroups, email, externalId, firstName, healthCode,
             Elements(languages), lastName, notifyByEmail, roles, sharingScope)
    }

    /** equals against a StudyParticipant or null: the same object, or all twelve fields pairwise equal. */
    function Equals(other: StudyParticipant?): (r: bool)
      reads this, other
      ensures r <==> other != null && View() == other.View()
    {
      if this == other then true
      else if other == null then false
      else
        && attributes == other.attributes && consentHistories == other.consentHistories
        && dataGroups == other.dataGroups && email == other.email
        && externalId == other.externalId && firstName == other.firstName
        && healthCode == other.healthCode && Elements(languages) == Elements(other.languages)
        && lastName == other.lastName && notifyByEmail == other.notifyByEmail
        && roles == other.roles && sharingScope == other.sharingScope
    }
  }

  /** equals is an equivalence on participants. */
  lemma EqualsIsEquivalence(a: StudyParticipant, b: StudyParticipant, c: StudyParticipant)
    ensures a.Equals(a)
    ensures a.Equals(b) ==> b.Equals(a)
    ensures a.Equals(b) && b.Equals(c) ==> a.Equals(c)
  {
  }

  /** Two participants that list the same languages in different orders are equal. */
  lemma LanguageOrderIgnored(a: StudyParticipant, b: StudyParticipant)
    requires a.languages.Some? && b.languages.Some?
    requires multiset(a.languages.value) == multiset(b.languages.value)
    requires a.View().(languages := None) == b.View().(languages := None)
    ensures a.Equals(b)
  {
    var sa, sb := set x | x in a.languages.value, set x | x in b.languages.value;
    forall x
      ensures x in sa <==> x in sb
    {
      assert x in a.languages.value <==> x in multiset(a.languages.value);
      assert x in b.languages.value <==> x in multiset(b.languages.value);
    }
    assert sa == sb;
  }

  class Builder {
    var firstName: Option<string>
    var lastName: Option<string>
    var externalId: Option<string>
    var sharingScope: Option<SharingScope>
    var notifyByEmail: bool
    // These three start non-null and the setters never store a null, so they are never null.
    var dataGroups: set<string>
    var attributes: map<string, string>
    var languages: LinkedSet

    constructor ()
      ensures firstName == None && lastName == None && externalId == None && sharingScope == None
      ensures !notifyByEmail && dataGroups == {} && attributes == map[] && languages == []
    {
      firstName, lastName, externalId, sharingScope := None, None, None, None;
      notifyByEmail := false;
      dataGroups, attributes, languages := {}, map[], [];
    }

    method WithFirstName(firstName: Option<string>) returns (b: Builder)
      modifies this
      ensures b == this && this.firstName == firstName
      ensures lastName == old(lastName) && externalId == old(externalId) && sharingScope == old(sharingScope)
      ensures notifyByEmail == old(notifyByEmail) && dataGroups == old(dataGroups)
      ensures attributes == old(attributes) && languages == old(languages)
    {
      this.firstName := firstName;
      b := this;
    }

    method WithLastName(lastName: Option<string>) returns (b: Builder)
      modifies this
      ensures b == this && this.lastName == lastName
      ensures firstName == old(firstName) && externalId == old(externalId) && sharingScope == old(sharingScope)
      ensures notifyByEmail == old(notifyByEmail) && dataGroups == old(dataGroups)
      ensures attributes == old(attributes) && languages == old(languages)
    {
      this.lastName := lastName;
      b := this;
    }

    method WithExternalId(externalId: Option<string>) returns (b: Builder)
      modifies this
      ensures b == this && this.externalId == externalId
      ensures firstName == old(firstName) && lastName == old(lastName) && sharingScope == old(sharingScope)
      ensures notifyByEmail == old(notifyByEmail) && dataGroups == old(dataGroups)
      ensures attributes == old(attributes) && languages == old(languages)
    {
      this.externalId := externalId;
      b := this;
    }

    method WithSharingScope(sharingScope: Option<SharingScope>) returns (b: Builder)
      modifies this
      ensures b == this && this.sharingScope == sharingScope
      ensures firstName == old(firstName) && lastName == old(lastName) && externalId == old(externalId)
      ensures notifyByEmail == old(notifyByEmail) && dataGroups == old(dataGroups)
      ensures attributes == old(attributes) && languages == old(languages)
    {
      this.sharingScope := sharingScope;
      b := this;
    }

    method WithNotifyByEmail(notifyByEmail: bool) returns (b: Builder)
      modifies this
      ensures b == this && this.notifyByEmail == notifyByEmail
      ensures firstName == old(firstName) && lastName == old(lastName) && externalId == old(externalId)
      ensures sharingScope == old(sharingScope) && dataGroups == old(dataGroups)
      ensures attributes == old(attributes) && languages == old(languages)
    {
      this.notifyByEmail := notifyByEmail;
      b := this;
    }

    /** A null argument keeps the previous value. */
    method WithDataGroups(dataGroups: Option<set<string>>) returns (b: Builder)
      modifies this
      ensures b == this && this.dataGroups == if dataGroups.Some? then dataGroups.value else old(this.dataGroups)
      ensures firstName == old(firstName) && lastName == old(lastName) && externalId == old(externalId)
      ensures sharingScope == old(sharingScope) && notifyByEmail == old(notifyByEmail)
      ensures attributes == old(attributes) && languages == old(languages)
    {
      if dataGroups.Some? {
        this.dataGroups := dataGroups.value;
      }
      b := this;
    }

    /** A null argument keeps the previous value. */
    method WithLanguages(languages: Option<LinkedSet>) returns (b: Builder)
      modifies this
      ensures b == this && this.languages == if languages.Some? then languages.value else old(this.languages)
      ensures firstName == old(firstName) && lastName == old(lastName) && externalId == old(externalId)
      ensures sharingScope == old(sharingScope) && notifyByEmail == old(notifyByEmail)
      ensures dataGroups == old(dataGroups) && attributes == old(attributes)
    {
      if languages.Some? {
        this.languages := languages.value;
      }
      b := this;
    }

    /** A null argument keeps the previous value; the map is stored whole, blank entries included. */
    method WithAttributes(attributes: Option<map<string, string>>) returns (b: Builder)
      modifies this
      ensures b == this && this.attributes == if attributes.Some? then attributes.value else old(this.attributes)
      ensures firstName == old(firstName) && lastName == old(lastName) && externalId == old(externalId)
      ensures sharingScope == old(sharingScope) && notifyByEmail == old(notifyByEmail)
      ensures dataGroups == old(dataGroups) && languages == old(languages)
    {
      if attributes.Some? {
        this.attributes := attributes.value;
      }
      b := this;
    }

    /** build: email, healthCode, consentHistories and roles are always null; the rest come from the builder. */
    method Build() returns (p: StudyParticipant)
      ensures fresh(p)
      ensures p.email == None && p.healthCode == None && p.consentHistories == None && p.roles == None
      ensures p.firstName == firstName && p.lastName == lastName && p.externalId == externalId
      ensures p.sharingScope == sharingScope && p.notifyByEmail == notifyByEmail
      ensures p.dataGroups == Some(dataGroups) && p.attributes == attributes && p.languages == Some(languages)
    {
      p := new StudyParticipant(firstName, lastName, None, externalId, sharingScope, notifyByEmail,
                                Some(dataGroups), None, Some(attributes), None, None, Some(languages));
    }
  }

  /** A client of the builder: defaults, then two setters and a null that is ignored. */
  method BuilderScenario() returns (p: StudyParticipant)
    ensures p.firstName == Some("Ann") && p.dataGroups == Some({"group1"}) && p.attributes == map[]
    ensures p.languages == Some([]) && !p.notifyByEmail && p.email == None && p.roles == None
    ensures p.lastName == None && p.externalId == None && p.sharingScope == None
    ensures p.healthCode == None && p.consentHistories == None
  {
    var b := new Builder();
    b := b.WithFirstName(Some("Ann"));
    b := b.WithDataGroups(Some({"group1"}));
    b := b.WithDataGroups(None);
    p := b.Build();
  }

  /** Unlike setAttribute, the constructor keeps blank entries: an entry with a blank name or value
      that setAttribute would not have stored is still there after construction. */
  method ConstructorKeepsBlankAttributes(attributes: map<string, string>, name: string) returns (p: StudyParticipant)
    requires name in attributes && (IsBlank(Some(name)) || IsBlank(Some(attributes[name])))
    ensures fresh(p) && p.attributes == attributes
    ensures name !in PutIfNotBlank(attributes - {name}, Some(name), Some(attributes[name]))
  {
    p := new StudyParticipant(None, None, None, None, None, false, None, None, Some(attributes), None, None, None);
  }
}
