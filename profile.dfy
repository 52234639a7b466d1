/** The write handlers of the profile routes: create-or-update of the caller's profile,
    profile and user removal, and adding and deleting experience and education entries.
    The Profile and User collections are maps and sets held by a ProfileStore; the caller
    id is the one the auth middleware resolved; fresh subdocument ids are parameters. */
module ProfileRoutes {
  import opened Wrappers
  import opened Http
  import opened JsString
  import opened JsArray
  import opened Subdocs

  datatype Social = Social(
    youtube: Option<string>, facebook: Option<string>, twitter: Option<string>,
    instagram: Option<string>, linkedin: Option<string>)

  /** The body of POST /api/profile; a field the request does not carry is "". */
  datatype ProfileInput = ProfileInput(
    company: string, website: string, location: string, bio: string, status: string,
    githubusername: string, skills: string,
    youtube: string, facebook: string, twitter: string, instagram: string, linkedin: string)

  /** `profileFields`: the object the handler builds and then saves or `$set`s. */
  datatype ProfileFields = ProfileFields(
    user: string, company: Option<string>, website: Option<string>, location: Option<string>,
    bio: Option<string>, status: Option<string>, githubusername: Option<string>,
    skills: Option<seq<string>>, social: Social)

  /** The body of PUT /api/profile/experience, stored as the entry. */
  datatype Experience = Experience(
    company: string, title: string, location: string, from: string, to: string,
    current: string, description: string)

  /** The body of PUT /api/profile/education, stored as the entry. */
  datatype Education = Education(
    school: string, degree: string, fieldofstudy: string, from: string, to: string,
    current: string, description: string)

  /** A stored profile document. */
  datatype Profile = Profile(
    user: string, company: Option<string>, website: Option<string>, location: Option<string>,
    bio: Option<string>, status: Option<string>, githubusername: Option<string>,
    skills: seq<string>, social: Social,
    experience: seq<Sub<Experience>>, education: seq<Sub<Education>>)

  // ---------------------------------------------------------------------------
  // Building and merging the profile fields

  /** `if (x) fields.x = x`: a string is truthy exactly when it is not empty. */
  function IfTruthy(s: string): Option<string> {
    if s != "" then Some(s) else None
  }

  /** The field is present exactly when the input is truthy, and then holds the input. */
  predicate Carries(field: Option<string>, input: string) {
    (field.Some? <==> input != "") && (field.Some? ==> field.value == input)
  }

  function ProfileChecks(input: ProfileInput): seq<Check> {
    [Check("status", "Status is required", input.status),
     Check("skills", "Skills is required", input.skills)]
  }

  /** The `profileFields` object: the caller as `user`, each scalar only when truthy,
      `skills` parsed from its comma-separated form, and `social` always present. */
  function BuildFields(caller: string, input: ProfileInput): (r: ProfileFields)
    ensures r.user == caller
    ensures Carries(r.company, input.company) && Carries(r.website, input.website)
    ensures Carries(r.location, input.location) && Carries(r.bio, input.bio)
    ensures Carries(r.status, input.status) && Carries(r.githubusername, input.githubusername)
    ensures r.skills.Some? <==> input.skills != ""
    ensures r.skills.Some? ==> r.skills.value == ParseList(input.skills)
    ensures r.skills.Some? ==> |r.skills.value| == Count(input.skills, ',') + 1
    ensures Carries(r.social.youtube, input.youtube) && Carries(r.social.facebook, input.facebook)
    ensures Carries(r.social.twitter, input.twitter) && Carries(r.social.instagram, input.instagram)
    ensures Carries(r.social.linkedin, input.linkedin)
  {
    ProfileFields(
      caller, IfTruthy(input.company), IfTruthy(input.website), IfTruthy(input.location),
      IfTruthy(input.bio), IfTruthy(input.status), IfTruthy(input.githubusername),
      if input.skills != "" then Some(ParseList(input.skills)) else None,
      Social(IfTruthy(input.youtube), IfTruthy(input.facebook), IfTruthy(input.twitter),
             IfTruthy(input.instagram), IfTruthy(input.linkedin)))
  }

  /** `new Profile(profileFields)`: no entries yet, an absent skills list is empty. */
  function Created(f: ProfileFields): (r: Profile)
    ensures r.user == f.user && r.social == f.social
    ensures r.company == f.company && r.website == f.website && r.location == f.location
    ensures r.bio == f.bio && r.status == f.status && r.githubusername == f.githubusername
    ensures f.skills.None? ==> r.skills == []
    ensures f.skills.Some? ==> r.skills == f.skills.value
    ensures r.experience == [] && r.education == []
  {
    Profile(f.user, f.company, f.website, f.location, f.bio, f.status, f.githubusername,
            if f.skills.Some? then f.skills.value else [], f.social, [], [])
  }

  /** `$set` of one top-level key: present keys overwrite, absent keys keep the old value. */
  function Override<T>(update: Option<T>, previous: Option<T>): Option<T> {
    if update.Some? then update else previous
  }

  /** `findOneAndUpdate({user}, {$set: profileFields})`. `social` is one key of the
      update, so the nested object is replaced as a whole; keys the update lacks keep
      their stored value, and the entry lists are not touched. */
  function SetFields(p: Profile, f: ProfileFields): (r: Profile)
    ensures r.user == f.user && r.social == f.social
    ensures f.company.Some? ==> r.company == f.company
    ensures f.company.None? ==> r.company == p.company
    ensures f.website.Some? ==> r.website == f.website
    ensures f.website.None? ==> r.website == p.website
    ensures f.location.Some? ==> r.location == f.location
    ensures f.location.None? ==> r.location == p.location
    ensures f.bio.Some? ==> r.bio == f.bio
    ensures f.bio.None? ==> r.bio == p.bio
    ensures f.status.Some? ==> r.status == f.status
    ensures f.status.None? ==> r.status == p.status
    ensures f.githubusername.Some? ==> r.githubusername == f.githubusername
    ensures f.githubusername.None? ==> r.githubusername == p.githubusername
    ensures f.skills.Some? ==> r.skills == f.skills.value
    ensures f.skills.None? ==> r.skills == p.skills
    ensures r.experience == p.experience && r.education == p.education
  {
    p.(user := f.user,
       company := Override(f.company, p.company), website := Override(f.website, p.website),
       location := Override(f.location, p.location), bio := Override(f.bio, p.bio),
       status := Override(f.status, p.status),
       githubusername := Override(f.githubusername, p.githubusername),
       skills := if f.skills.Some? then f.skills.value else p.skills,
       social := f.social)
  }

  /** The caller's profile after a POST that passed validation, from the profile it had, if any.
      The profile belongs to the caller; a truthy input overwrites its field and an empty one
      keeps the old value (or leaves the field absent on a new profile); `social` holds exactly
      the truthy links, whatever it held before; the entry lists are kept (empty when new). */
  function Upserted(existing: Option<Profile>, caller: string, input: ProfileInput): (r: Profile)
    ensures r.user == caller
    ensures r.company == (if input.company != "" then Some(input.company) else if existing.Some? then existing.value.company else None)
    ensures r.website == (if input.website != "" then Some(input.website) else if existing.Some? then existing.value.website else None)
    ensures r.location == (if input.location != "" then Some(input.location) else if existing.Some? then existing.value.location else None)
    ensures r.bio == (if input.bio != "" then Some(input.bio) else if existing.Some? then existing.value.bio else None)
    ensures r.status == (if input.status != "" then Some(input.status) else if existing.Some? then existing.value.status else None)
    ensures r.githubusername == (if input.githubusername != "" then Some(input.githubusername) else if existing.Some? then existing.value.githubusername else None)
    ensures r.skills == (if input.skills != "" then ParseList(input.skills) else if existing.Some? then existing.value.skills else [])
    ensures Carries(r.social.youtube, input.youtube) && Carries(r.social.facebook, input.facebook)
    ensures Carries(r.social.twitter, input.twitter) && Carries(r.social.instagram, input.instagram)
    ensures Carries(r.social.linkedin, input.linkedin)
    ensures r.experience == (if existing.Some? then existing.value.experience else [])
    ensures r.education == (if existing.Some? then existing.value.education else [])
  {
    var f := BuildFields(caller, input);
    if existing.Some? then SetFields(existing.value, f) else Created(f)
  }

  /** A POST that passes validation stores a non-empty status and a skills list with one
      trimmed element per comma-separated piece of the input. */
  lemma UpsertedRequiredFields(existing: Option<Profile>, caller: string, input: ProfileInput)
    requires Failures(ProfileChecks(input)) == []
    ensures Upserted(existing, caller, input).status == Some(input.status)
    ensures |Upserted(existing, caller, input).skills| == Count(input.skills, ',') + 1
    ensures forall i :: 0 <= i < |Upserted(existing, caller, input).skills| ==>
      IsTrimmed(Upserted(existing, caller, input).skills[i])
  {
    assert ProfileChecks(input)[0].value == input.status;
    assert ProfileChecks(input)[1].value == input.skills;
  }

  /** Posting the same body twice stores the same profile as posting it once. */
  lemma UpsertIdempotent(existing: Option<Profile>, caller: string, input: ProfileInput)
    ensures Upserted(Some(Upserted(existing, caller, input)), caller, input) == Upserted(existing, caller, input)
  {
  }

  function ExperienceChecks(e: Experience): seq<Check> {
    [Check("title", "Title is required", e.title),
     Check("company", "Company is required", e.company),
     Check("from", "From is required", e.from)]
  }

  function EducationChecks(e: Education): seq<Check> {
    [Check("school", "School is required", e.school),
     Check("degree", "Degree is required", e.degree),
     Check("fieldofstudy", "Field of Study is required", e.fieldofstudy),
     Check("from", "From is required", e.from)]
  }

  /** Adding an entry with a fresh id and then deleting that id gives the list back, for an
      id that is NaN as a number: the new entry sits at position 0, where the splice lands. */
  lemma AddThenDeleteRoundTrip<T>(s: seq<Sub<T>>, x: Sub<T>)
    requires UniqueIds(s) && x.id !in Ids(s) && NumericIndex(x.id) == 0
    ensures DeleteScan([x] + s, x.id) == s
  {
    UnshiftKeepsUnique(s, x);
    assert Ids([x] + s)[0] == x.id;
    DeleteRemovesFirst([x] + s, x.id);
    assert ([x] + s)[1..] == s;
  }

  /** Deleting the second of two entries by its id removes the first one and keeps the
      entry that matched. */
  lemma DeleteSecondKeepsIt<T>(a: Sub<T>, b: Sub<T>)
    requires a.id != b.id && NumericIndex(b.id) == 0
    ensures DeleteScan([a, b], b.id) == [b]
  {
    assert Ids([a, b])[1] == b.id;
    DeleteRemovesFirst([a, b], b.id);
  }

  // ---------------------------------------------------------------------------
  // The Profile and User collections

  /** The entry ids of a profile are unique ObjectId strings, as generated ids are. */
  predicate EntriesWellFormed(p: Profile) {
    UniqueIds(p.experience) && UniqueIds(p.education) && StoredIds(p.experience) && StoredIds(p.education)
  }

  /** The delete loop over either entry list keeps a profile's entries well formed. */
  lemma DeleteKeepsWellFormed(p: Profile, id: string)
    requires EntriesWellFormed(p)
    ensures EntriesWellFormed(p.(experience := DeleteScan(p.experience, id)))
    ensures EntriesWellFormed(p.(education := DeleteScan(p.education, id)))
  {
    DeleteScanUnique(p.experience, id);
    SpliceKeepsUnique(p.experience, NumericIndex(id));
    DeleteKeepsStored(p.experience, 0, |p.experience|, id);
    DeleteScanUnique(p.education, id);
    SpliceKeepsUnique(p.education, NumericIndex(id));
    DeleteKeepsStored(p.education, 0, |p.education|, id);
  }

  class ProfileStore {
    /** The Profile collection, by owning user id. */
    var profiles: map<string, Profile>
    /** The ids in the User collection. */
    var users: set<string>

    /** Each profile is stored under its owner, and its entries are well formed. */
    ghost predicate Valid()
      reads this
    {
      forall u :: u in profiles ==> profiles[u].user == u && EntriesWellFormed(profiles[u])
    }

    constructor (registered: set<string>)
      ensures Valid() && profiles == map[] && users == registered
    {
      profiles := map[];
      users := registered;
    }

    /** DELETE /api/profile: removes the caller's profile and then the caller's user record;
        either may already be missing. */
    method DeleteProfile(caller: string) returns (reply: Reply)
      requires Valid()
      modifies this
      ensures Valid()
      ensures profiles == old(profiles) - {caller} && users == old(users) - {caller}
      ensures reply == Ok("The user has been deleted successfully")
    {
      profiles := profiles - {caller};
      users := users - {caller};
      reply := Ok("The user has been deleted successfully");
    }

    /** POST /api/profile: validate, build the fields, then create or `$set`-merge. */
    method PostProfile(caller: string, input: ProfileInput) returns (reply: Reply)
      requires Valid()
      modifies this
      ensures Valid() && users == old(users)
      ensures Failures(ProfileChecks(input)) != [] ==>
        reply == Invalid(Failures(ProfileChecks(input))) && profiles == old(profiles)
      ensures Failures(ProfileChecks(input)) == [] ==> reply == Ok("")
      ensures Failures(ProfileChecks(input)) == [] ==>
        caller in profiles && forall u :: u in profiles && profiles[u].user == caller ==> u == caller
      ensures Failures(ProfileChecks(input)) == [] ==>
        profiles == old(profiles)[caller := Upserted(if caller in old(profiles) then Some(old(profiles)[caller]) else None, caller, input)]
    {
      var errors := Failures(ProfileChecks(input));
      if errors != [] {
        return Invalid(errors);
      }
      var profileFields := BuildFields(caller, input);
      if caller in profiles {
        profiles := profiles[caller := SetFields(profiles[caller], profileFields)];
        return Ok("");
      }
      profiles := profiles[caller := Created(profileFields)];
      reply := Ok("");
    }

    /** PUT /api/profile/experience: validate, then `unshift` the entry with its fresh id. */
    method PutExperience(caller: string, entry: Experience, id: string) returns (reply: Reply)
      requires Valid()
      requires IsStoredId(id)
      requires caller in profiles ==> id !in Ids(profiles[caller].experience)
      modifies this
      ensures Valid() && users == old(users)
      ensures Failures(ExperienceChecks(entry)) != [] ==>
        reply == Invalid(Failures(ExperienceChecks(entry))) && profiles == old(profiles)
      ensures Failures(ExperienceChecks(entry)) == [] && caller !in old(profiles) ==>
        reply == ServerError && profiles == old(profiles)
      ensures Failures(ExperienceChecks(entry)) == [] && caller in old(profiles) ==> reply == Ok("")
      ensures Failures(ExperienceChecks(entry)) == [] && caller in old(profiles) ==>
        profiles == old(profiles)[caller := old(profiles)[caller].(experience := [Sub(id, entry)] + old(profiles)[caller].experience)]
    {
      var errors := Failures(ExperienceChecks(entry));
      if errors != [] {
        return Invalid(errors);
      }
      if caller !in profiles {
        return ServerError;
      }
      var profile := profiles[caller];
      UnshiftKeepsUnique(profile.experience, Sub(id, entry));
      profile := profile.(experience := [Sub(id, entry)] + profile.experience);
      profiles := profiles[caller := profile];
      reply := Ok("");
    }

    /** DELETE /api/profile/experience/:exp_id: the delete loop over the caller's entries. */
    method DeleteExperience(caller: string, expId: string) returns (reply: Reply)
      requires Valid()
      modifies this
      ensures Valid() && users == old(users)
      ensures caller !in old(profiles) ==> reply == ServerError && profiles == old(profiles)
      ensures caller in old(profiles) ==> reply == Ok("")
      ensures caller in old(profiles) ==> (
        var list := old(profiles)[caller].experience;
        profiles == old(profiles)[caller := old(profiles)[caller].(experience :=
          if expId in Ids(list) then SpliceOne(list, NumericIndex(expId)) else list)])
    {
      if caller !in profiles {
        return ServerError;
      }
      var profile := profiles[caller];
      var remaining := DeleteMatching(profile.experience, expId);
      DeleteKeepsWellFormed(profile, expId);
      profile := profile.(experience := remaining);
      profiles := profiles[caller := profile];
      reply := Ok("");
    }

    /** PUT /api/profile/education: validate, then `unshift` the entry with its fresh id. */
    method PutEducation(caller: string, entry: Education, id: string) returns (reply: Reply)
      requires Valid()
      requires IsStoredId(id)
      requires caller in profiles ==> id !in Ids(profiles[caller].education)
      modifies this
      ensures Valid() && users == old(users)
      ensures Failures(EducationChecks(entry)) != [] ==>
        reply == Invalid(Failures(EducationChecks(entry))) && profiles == old(profiles)
      ensures Failures(EducationChecks(entry)) == [] && caller !in old(profiles) ==>
        reply == ServerError && profiles == old(profiles)
      ensures Failures(EducationChecks(entry)) == [] && caller in old(profiles) ==> reply == Ok("")
      ensures Failures(EducationChecks(entry)) == [] && caller in old(profiles) ==>
        profiles == old(profiles)[caller := old(profiles)[caller].(education := [Sub(id, entry)] + old(profiles)[caller].education)]
    {
      var errors := Failures(EducationChecks(entry));
      if errors != [] {
        return Invalid(errors);
      }
      if caller !in profiles {
        return ServerError;
      }
      var profile := profiles[caller];
      UnshiftKeepsUnique(profile.education, Sub(id, entry));
      profile := profile.(education := [Sub(id, entry)] + profile.education);
      profiles := profiles[caller := profile];
      reply := Ok("");
    }

    /** DELETE /api/profile/education/:edu_id: the delete loop over the caller's entries. */
    method DeleteEducation(caller: string, eduId: string) returns (reply: Reply)
      requires Valid()
      modifies this
      ensures Valid() && users == old(users)
      ensures caller !in old(profiles) ==> reply == ServerError && profiles == old(profiles)
      ensures caller in old(profiles) ==> reply == Ok("")
      ensures caller in old(profiles) ==> (
        var list := old(profiles)[caller].education;
        profiles == old(profiles)[caller := old(profiles)[caller].(education :=
          if eduId in Ids(list) then SpliceOne(list, NumericIndex(eduId)) else list)])
    {
      if caller !in profiles {
        return ServerError;
      }
      var profile := profiles[caller];
      var remaining := DeleteMatching(profile.education, eduId);
      DeleteKeepsWellFormed(profile, eduId);
      profile := profile.(education := remaining);
      profiles := profiles[caller := profile];
      reply := Ok("");
    }
  }
}
