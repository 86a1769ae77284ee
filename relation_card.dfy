/** A relation as the list shows it (`RelationCard.jsx`): the badge colour of its relationship
    type and the placeholders shown for missing details. */
module RelationCard {
  import opened Wrappers
  import opened Json

  /** A relation record on the client; every field may be missing (`None`). */
  datatype Relation = Relation(
    id: Option<Json>,
    name: Option<string>,
    relationshipType: Option<string>,
    city: Option<string>,
    email: Option<string>,
    phoneNumber: Option<string>,
    lastContacted: Option<string>)

  const FriendsColor := "#4CAF50"
  const FamilyColor := "#2196F3"
  const WorkColor := "#FFC107"
  const OthersColor := "#9C27B0"
  const DefaultColor := "#757575"

  /** The types the colour switch names. */
  const ColouredTypes: seq<string> := ["Friends", "Family", "Work", "Others"]

  /** `getTypeBackgroundColor`: the badge colour of a relationship type, grey for any type the
      switch does not name, including a missing one. */
  function TypeColor(t: Option<string>): (c: string)
    ensures c == DefaultColor <==> !(t.Some? && t.value in ColouredTypes)
    ensures c in [FriendsColor, FamilyColor, WorkColor, OthersColor, DefaultColor]
  {
    match t
    case Some("Friends") => FriendsColor
    case Some("Family") => FamilyColor
    case Some("Work") => WorkColor
    case Some("Others") => OthersColor
    case _ => DefaultColor
  }

  /** Two named types never share a colour: a badge colour other than grey identifies the type. */
  lemma TypeColorIdentifies(a: Option<string>, b: Option<string>)
    requires TypeColor(a) == TypeColor(b) != DefaultColor
    ensures a == b
  {
  }

  /** `value || placeholder` on a detail that may be missing or empty. */
  function Detail(value: Option<string>, placeholder: string): (r: string)
    ensures value.Some? && value.value != [] ==> r == value.value
    ensures value.None? || value.value == [] ==> r == placeholder
  {
    if value.Some? && value.value != [] then value.value else placeholder
  }

  /** The three detail lines: the city, e-mail and phone number, or their placeholders. */
  function Details(r: Relation): (lines: (string, string, string))
    ensures r.city.None? || r.city.value == [] ==> lines.0 == "No location"
    ensures r.city.Some? && r.city.value != [] ==> lines.0 == r.city.value
    ensures r.email.None? || r.email.value == [] ==> lines.1 == "No email"
    ensures r.email.Some? && r.email.value != [] ==> lines.1 == r.email.value
    ensures r.phoneNumber.None? || r.phoneNumber.value == [] ==> lines.2 == "No phone"
    ensures r.phoneNumber.Some? && r.phoneNumber.value != [] ==> lines.2 == r.phoneNumber.value
  {
    (Detail(r.city, "No location"), Detail(r.email, "No email"), Detail(r.phoneNumber, "No phone"))
  }

  /** The "Last contacted" text: the formatted date, or "Never" when there is none. Date
      formatting is the parameter `format`. */
  function LastContacted(r: Relation, format: string -> string): (text: string)
    ensures r.lastContacted.None? || r.lastContacted.value == [] ==> text == "Never"
    ensures r.lastContacted.Some? && r.lastContacted.value != [] ==> text == format(r.lastContacted.value)
  {
    if r.lastContacted.Some? && r.lastContacted.value != [] then format(r.lastContacted.value) else "Never"
  }
}
