/** The challenge card, `src/components/ChallengeCard.jsx`: the image it
    shows, the colour of its status badge, and the page it links to. The
    challenge list page (`src/pages/Challenges.jsx`) defines the same
    image rule. */
module ChallengeCard {
  import opened Base
  import opened Js

  const Placeholder: Value := Str("/placeholder.svg")

  /** `v[0]` on a parsed JSON value: an array's first element, a string's
      first character, an object's "0" property; null throws (None). */
  function First(v: Value): Option<Value>
  {
    match v
    case Null => None
    case Undefined => None
    case Arr(items) => Some(if items == [] then Undefined else items[0])
    case Str(s) => Some(if s == [] then Undefined else Str([s[0]]))
    case Obj(fields) => Some(if "0" in fields then fields["0"] else Undefined)
    case _ => Some(Undefined)
  }

  /** `getFirstImage`: a falsy value, JSON that does not parse, a `null`
      parse and a falsy first element all give the placeholder; otherwise
      the first element. `JSON.parse` reads its argument through `String`. */
  function FirstImage(images: Value, json: Json): (r: Value)
    ensures Truthy(r)
    ensures !Truthy(images) ==> r == Placeholder
    ensures Truthy(images) && json.parse(ToString(images)).None? ==> r == Placeholder
  {
    if !Truthy(images) then Placeholder
    else match json.parse(ToString(images))
      case None => Placeholder
      case Some(parsed) =>
        match First(parsed)
        case None => Placeholder
        case Some(first) => Or(first, Placeholder)
  }

  /** For a stored images string that parses to an array, the card shows
      the first element when it is truthy and the placeholder when it is
      falsy or the array is empty. */
  lemma FirstImageOfArray(text: string, items: seq<Value>, json: Json)
    requires text != "" && json.parse(text) == Some(Arr(items))
    ensures items != [] && Truthy(items[0]) ==> FirstImage(Str(text), json) == items[0]
    ensures (items == [] || !Truthy(items[0])) ==> FirstImage(Str(text), json) == Placeholder
  {
  }

  /** The badge colour classes of `statusColors`. */
  function StatusClass(status: string): (r: Option<string>)
    ensures r.Some? <==> status in {"In Progress", "Completed", "Fallen"}
    ensures status == "In Progress" ==> r == Some("bg-green-500")
    ensures status == "Completed" ==> r == Some("bg-sky-500")
    ensures status == "Fallen" ==> r == Some("bg-yellow-500")
  {
    if status == "In Progress" then Some("bg-green-500")
    else if status == "Completed" then Some("bg-sky-500")
    else if status == "Fallen" then Some("bg-yellow-500")
    else None
  }

  /** The three known statuses get three different colours. */
  lemma StatusClassesDistinct()
    ensures StatusClass("In Progress") != StatusClass("Completed")
    ensures StatusClass("Completed") != StatusClass("Fallen")
    ensures StatusClass("In Progress") != StatusClass("Fallen")
  {
  }

  const DetailPrefix: string := "/challenge/detail/"

  /** `/challenge/detail/${challenge.id}`. */
  function LinkPath(id: string): (r: string)
    ensures |r| == |DetailPrefix| + |id|
    ensures r[..|DetailPrefix|] == DetailPrefix
  {
    DetailPrefix + id
  }

  /** The detail route reads the id back from the link. */
  function IdOfPath(path: string): Option<string>
  {
    if |path| >= |DetailPrefix| && path[..|DetailPrefix|] == DetailPrefix
    then Some(path[|DetailPrefix|..]) else None
  }

  lemma LinkPathRoundTrip(id: string)
    ensures IdOfPath(LinkPath(id)) == Some(id)
  {
    assert LinkPath(id)[|DetailPrefix|..] == id;
  }

  /** Different challenges link to different pages. */
  lemma LinkPathInjective(a: string, b: string)
    requires LinkPath(a) == LinkPath(b)
    ensures a == b
  {
    LinkPathRoundTrip(a);
    LinkPathRoundTrip(b);
  }
}
