/** The Docker Engine objects the console lists, as the backing API hands
    them over: decoded JSON objects of which the console reads a few
    fields, any of which may be absent. */
module Resources {

  datatype Option<+T> = None | Some(value: T)

  /** A decoded container, image, volume or network object. The field names
      are the wire names; `name` (lower case) and `Name` are distinct keys,
      and the label falls back from one to the other. A field that is
      absent or `null` is `None`. */
  datatype Entity = Entity(
    Id: Option<string>,
    Names: Option<seq<string>>,
    name: Option<string>,
    Name: Option<string>,
    State: Option<string>,
    Image: Option<string>,
    RepoTags: Option<seq<string>>,
    Driver: Option<string>)

  /** JavaScript truthiness of an optional string: present and non-empty. */
  predicate Truthy(s: Option<string>)
  {
    s.Some? && s.value != ""
  }

  /** The drag types, one per resource kind, spelt as the sidebar spells them. */
  datatype ItemType = CONTAINER | IMAGE | VOLUME | NETWORK

  /** The order of the kinds, shared by the refresh, which fetches them in
      this order, and by the sidebar, whose tabs list them in this order. */
  function Position(t: ItemType): nat
  {
    match t
    case CONTAINER => 0
    case IMAGE => 1
    case VOLUME => 2
    case NETWORK => 3
  }

  /** The kind at a position of that order. */
  function KindAt(position: nat): (t: ItemType)
    requires position < 4
    ensures Position(t) == position
  {
    [CONTAINER, IMAGE, VOLUME, NETWORK][position]
  }

  /** The four collection slots, each replaced wholesale when refreshed. */
  datatype Collections = Collections(
    containers: seq<Entity>,
    images: seq<Entity>,
    volumes: seq<Entity>,
    networks: seq<Entity>)

  /** The slot that holds the objects of one kind. */
  function Slot(c: Collections, t: ItemType): seq<Entity>
  {
    match t
    case CONTAINER => c.containers
    case IMAGE => c.images
    case VOLUME => c.volumes
    case NETWORK => c.networks
  }
}
