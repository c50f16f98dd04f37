/** The profile editor of ProfilePage.tsx: the tag lists (allergies, chronic
    conditions, past surgeries), the edits of one top-level or nested field of the
    draft, and saving or cancelling the draft. */
module Profile {
  import opened Types
  import opened Text
  import opened Seqs

  /** The tag input's `onKeyDown`: Enter with a value that is not blank appends the
      trimmed value; any other key, or a blank value, changes nothing. */
  function OnTagKey(tags: seq<string>, key: string, value: string): (r: seq<string>)
    ensures key == "Enter" && !IsBlank(value) ==> r == tags + [Trim(value)]
    ensures key != "Enter" || IsBlank(value) ==> r == tags
  {
    if key == "Enter" && Trim(value) != "" then tags + [Trim(value)] else tags
  }

  /** An added tag is never blank and has no outer white space. */
  lemma AddedTagIsTrimmed(tags: seq<string>, value: string)
    requires !IsBlank(value)
    ensures var t := OnTagKey(tags, "Enter", value)[|tags|];
      t != "" && !IsSpace(t[0]) && !IsSpace(t[|t| - 1])
  {
  }

  /** `removeTag`: every copy of the tag goes, the others stay in order. */
  function RemoveTag(tags: seq<string>, tag: string): (r: seq<string>)
    ensures forall t :: t in r <==> t in tags && t != tag
    ensures IsSubsequence(r, tags)
  {
    FilterIsSubsequence(tags, t => t != tag);
    Filter(tags, t => t != tag)
  }

  /** Removal takes out exactly the copies of the tag and keeps every other tag as
      many times as it was there. */
  lemma {:induction false} RemoveTagCounts(tags: seq<string>, tag: string)
    ensures multiset(RemoveTag(tags, tag)) == multiset(tags)[tag := 0]
  {
    if tags != [] {
      RemoveTagCounts(tags[1..], tag);
      assert tags == [tags[0]] + tags[1..];
      assert RemoveTag(tags, tag) == (if tags[0] != tag then [tags[0]] else []) + RemoveTag(tags[1..], tag);
    }
  }

  /** Adding a tag and removing it again leaves no copy of it, whatever the list
      held before. */
  lemma AddThenRemove(tags: seq<string>, value: string)
    requires !IsBlank(value)
    ensures Trim(value) !in RemoveTag(OnTagKey(tags, "Enter", value), Trim(value))
  {
  }

  /** The top-level fields the page edits. */
  datatype TextField = FullName | Email | Phone | Dob | Location
  datatype TagField = Allergies | ChronicConditions | PastSurgeries

  function GetText(p: UserProfile, f: TextField): string {
    match f
    case FullName => p.fullName
    case Email => p.email
    case Phone => p.phone
    case Dob => p.dob
    case Location => p.location
  }

  function GetTags(p: UserProfile, f: TagField): seq<string> {
    match f
    case Allergies => p.allergies
    case ChronicConditions => p.chronicConditions
    case PastSurgeries => p.pastSurgeries
  }

  /** `handleChange` for a text input. */
  function SetText(p: UserProfile, f: TextField, value: string): (r: UserProfile)
    ensures GetText(r, f) == value
    ensures forall g :: g != f ==> GetText(r, g) == GetText(p, g)
    ensures forall g :: GetTags(r, g) == GetTags(p, g)
    ensures r.emergencyContact == p.emergencyContact && r.lifestyle == p.lifestyle
    ensures r.(fullName := p.fullName, email := p.email, phone := p.phone, dob := p.dob, location := p.location) == p
  {
    match f
    case FullName => p.(fullName := value)
    case Email => p.(email := value)
    case Phone => p.(phone := value)
    case Dob => p.(dob := value)
    case Location => p.(location := value)
  }

  /** `handleChange` for a tag list. */
  function SetTags(p: UserProfile, f: TagField, tags: seq<string>): (r: UserProfile)
    ensures GetTags(r, f) == tags
    ensures forall g :: g != f ==> GetTags(r, g) == GetTags(p, g)
    ensures forall g :: GetText(r, g) == GetText(p, g)
    ensures r.emergencyContact == p.emergencyContact && r.lifestyle == p.lifestyle
    ensures r.(allergies := p.allergies, chronicConditions := p.chronicConditions, pastSurgeries := p.pastSurgeries) == p
  {
    match f
    case Allergies => p.(allergies := tags)
    case ChronicConditions => p.(chronicConditions := tags)
    case PastSurgeries => p.(pastSurgeries := tags)
  }

  /** The nested fields: the emergency contact's name and phone, and the two
      lifestyle choices. */
  datatype NestedField = ContactName | ContactPhone | SmokingStatus | AlcoholConsumption

  function GetNested(p: UserProfile, f: NestedField): string {
    match f
    case ContactName => p.emergencyContact.name
    case ContactPhone => p.emergencyContact.phone
    case SmokingStatus => p.lifestyle.smokingStatus
    case AlcoholConsumption => p.lifestyle.alcoholConsumption
  }

  /** `handleNestedChange`: the parent record is copied with one child replaced. */
  function SetNested(p: UserProfile, f: NestedField, value: string): (r: UserProfile)
    ensures GetNested(r, f) == value
    ensures forall g :: g != f ==> GetNested(r, g) == GetNested(p, g)
    ensures r.(emergencyContact := p.emergencyContact, lifestyle := p.lifestyle) == p
  {
    match f
    case ContactName => p.(emergencyContact := p.emergencyContact.(name := value))
    case ContactPhone => p.(emergencyContact := p.emergencyContact.(phone := value))
    case SmokingStatus => p.(lifestyle := p.lifestyle.(smokingStatus := value))
    case AlcoholConsumption => p.(lifestyle := p.lifestyle.(alcoholConsumption := value))
  }

  /** A nested edit back to the old value gives the old profile. */
  lemma SetNestedBack(p: UserProfile, f: NestedField, value: string)
    ensures SetNested(SetNested(p, f, value), f, GetNested(p, f)) == p
  {
  }

  /** The editor: edit mode and the draft. */
  datatype Editor = Editor(isEditing: bool, draft: UserProfile)

  function StartEditing(e: Editor): Editor {
    e.(isEditing := true)
  }

  /** `handleCancel`: the draft goes back to the profile the page was given. */
  function Cancel(e: Editor, given: UserProfile): (r: Editor)
    ensures !r.isEditing && r.draft == given
  {
    Editor(false, given)
  }

  /** `handleSave`: the draft is handed to the app and edit mode ends. */
  function Save(e: Editor): (r: (Editor, UserProfile))
    ensures !r.0.isEditing && r.0.draft == e.draft && r.1 == e.draft
  {
    (e.(isEditing := false), e.draft)
  }

  /** Edits made and then cancelled are never saved: saving afterwards hands over
      the given profile. */
  lemma CancelledEditsAreLost(e: Editor, given: UserProfile, f: TextField, value: string)
    ensures Save(Cancel(e.(draft := SetText(e.draft, f, value)), given)).1 == given
  {
  }
}
