/**
 * The NGO profile page of client/src/pages/ngo/profile.tsx: its validation
 * schema, the form filled from the stored profile, and the avatar text.
 * Zod's URL format check is the predicate `isUrl`.
 */
module NgoProfilePage {
  import opened Wrappers
  import opened Schema
  import opened Text

  datatype ProfileForm = ProfileForm(
    organizationName: Option<string>, description: Option<string>, mission: Option<string>,
    location: Option<string>, website: Option<string>, phone: Option<string>,
    focusAreas: Option<seq<string>>)

  datatype Field = OrganizationName | Description | Mission | Location | Website | Phone | FocusAreas

  /**
   * `ngoProfileSchema`: the fields that fail. The
   * organization name needs 3 characters, description and mission 10, the
   * location 5, the phone 10; the website may be absent, empty or a URL;
   * at least one focus area is required.
   */
  function Issues(f: ProfileForm, isUrl: string -> bool): (r: set<Field>)
    ensures OrganizationName in r <==> !AtLeast(f.organizationName, 3)
    ensures Description in r <==> !AtLeast(f.description, 10)
    ensures Mission in r <==> !AtLeast(f.mission, 10)
    ensures Location in r <==> !AtLeast(f.location, 5)
    ensures Website in r <==> f.website.Some? && f.website.value != "" && !isUrl(f.website.value)
    ensures Phone in r <==> !AtLeast(f.phone, 10)
    ensures FocusAreas in r <==> f.focusAreas.None? || |f.focusAreas.value| == 0
  {
    set x | x in AllFields && !Passes(f, x, isUrl)
  }

  const AllFields: set<Field> := {OrganizationName, Description, Mission, Location, Website, Phone, FocusAreas}

  /** The rule of `ngoProfileSchema` for one field. */
  predicate Passes(f: ProfileForm, x: Field, isUrl: string -> bool) {
    match x
    case OrganizationName => AtLeast(f.organizationName, 3)
    case Description => AtLeast(f.description, 10)
    case Mission => AtLeast(f.mission, 10)
    case Location => AtLeast(f.location, 5)
    case Website => f.website.None? || f.website.value == "" || isUrl(f.website.value)
    case Phone => AtLeast(f.phone, 10)
    case FocusAreas => f.focusAreas.Some? && |f.focusAreas.value| >= 1
  }

  /** `form.reset(...)` once the profile has loaded: a missing column becomes "" (or no focus areas). */
  function FormOf(n: Ngo): (r: ProfileForm)
    ensures r.organizationName == Some(n.organizationName) && r.location == Some(n.location)
    ensures r.description == Some(n.description.GetOr("")) && r.mission == Some(n.mission.GetOr(""))
    ensures r.website == Some(n.website.GetOr("")) && r.phone == Some(n.phone.GetOr(""))
    ensures r.focusAreas == Some(n.focusAreas.GetOr([]))
  {
    ProfileForm(Some(n.organizationName), Some(n.description.GetOr("")), Some(n.mission.GetOr("")),
                Some(n.location), Some(n.website.GetOr("")), Some(n.phone.GetOr("")),
                Some(n.focusAreas.GetOr([])))
  }

  /**
   * A profile created with only the fields the server requires cannot be
   * saved from this page unchanged: description, mission, phone and focus
   * areas all fail, while the empty website passes.
   */
  lemma BareProfileNeedsEditing(n: Ngo, isUrl: string -> bool)
    requires n.description.None? && n.mission.None? && n.phone.None? && n.focusAreas.None? && n.website.None?
    ensures var r := Issues(FormOf(n), isUrl);
      Description in r && Mission in r && Phone in r && FocusAreas in r && Website !in r
  {
  }

  /** `organizationName.substring(0, 2).toUpperCase()`. */
  function Avatar(organizationName: string): (r: string)
    ensures |r| == if |organizationName| < 2 then |organizationName| else 2
    ensures forall i :: 0 <= i < |r| ==> r[i] == UpperChar(organizationName[i])
    ensures r == Prefix(ToUpper(organizationName), 2)
  {
    UpperPrefix(organizationName, 2);
    ToUpper(Prefix(organizationName, 2))
  }
}
