/** The application shell: the four collections, the loading flag, the
    selected canvas node and the sidebar's visibility, and the refresh that
    fetches the collections one after another. How each fetch settles is a
    parameter of the refresh. */
module App {
  import opened Resources

  /** How one fetch settles: with the decoded response body, or by throwing
      (network failure or a body that is not JSON). */
  datatype Fetch<+T> = Fetched(data: T) | FetchFailed

  /** The volumes endpoint wraps its list in an object under `Volumes`. */
  datatype VolumesEnvelope = VolumesEnvelope(Volumes: Option<seq<Entity>>)

  /** How the four fetches of one refresh would settle. A fetch after a
      failed one is never issued, so its entry is then irrelevant. */
  datatype Responses = Responses(
    containers: Fetch<seq<Entity>>,
    images: Fetch<seq<Entity>>,
    volumes: Fetch<VolumesEnvelope>,
    networks: Fetch<seq<Entity>>)

  /** `volumesData.Volumes || []`. */
  function UnwrapVolumes(envelope: VolumesEnvelope): (volumes: seq<Entity>)
    ensures envelope.Volumes.Some? ==> volumes == envelope.Volumes.value
    ensures envelope.Volumes.None? ==> volumes == []
  {
    match envelope.Volumes
    case Some(vs) => vs
    case None => []
  }

  /** The collection a fetch delivers, volumes unwrapped; `None` when it fails. */
  function Delivered(r: Responses, t: ItemType): Option<seq<Entity>>
  {
    match t
    case CONTAINER => if r.containers.Fetched? then Some(r.containers.data) else None
    case IMAGE => if r.images.Fetched? then Some(r.images.data) else None
    case VOLUME => if r.volumes.Fetched? then Some(UnwrapVolumes(r.volumes.data)) else None
    case NETWORK => if r.networks.Fetched? then Some(r.networks.data) else None
  }

  /** How many fetches succeed before the first failure (4 when none fails). */
  function Completed(r: Responses): (n: nat)
    ensures n <= 4
    ensures forall t :: Position(t) < n ==> Delivered(r, t).Some?
    ensures n < 4 ==> Delivered(r, KindAt(n)).None?
  {
    if r.containers.FetchFailed? then 0
    else if r.images.FetchFailed? then 1
    else if r.volumes.FetchFailed? then 2
    else if r.networks.FetchFailed? then 3
    else 4
  }

  /** How many requests a refresh issues: one per successful step, plus the
      one that failed. */
  function RequestsIssued(r: Responses): (n: nat)
    ensures 1 <= n <= 4
    ensures n == 4 || Completed(r) == n - 1
  {
    if Completed(r) == 4 then 4 else Completed(r) + 1
  }

  /** The collections after one refresh, as the code assigns them: each
      successful fetch replaces its slot and the first failure abandons the
      rest. */
  function Refreshed(c: Collections, r: Responses): Collections
  {
    match r.containers
    case FetchFailed => c
    case Fetched(containers) =>
      var c := c.(containers := containers);
      match r.images
      case FetchFailed => c
      case Fetched(images) =>
        var c := c.(images := images);
        match r.volumes
        case FetchFailed => c
        case Fetched(envelope) =>
          var c := c.(volumes := UnwrapVolumes(envelope));
          match r.networks
          case FetchFailed => c
          case Fetched(networks) => c.(networks := networks)
  }

  /** Every slot before the first failed step holds what its fetch
      delivered; the failed slot and every later one keep their previous
      value. */
  lemma RefreshedSlots(c: Collections, r: Responses, t: ItemType)
    ensures Position(t) < Completed(r) ==>
      Delivered(r, t).Some? && Slot(Refreshed(c, r), t) == Delivered(r, t).value
    ensures Position(t) >= Completed(r) ==> Slot(Refreshed(c, r), t) == Slot(c, t)
  {
    match t
    case CONTAINER =>
    case IMAGE =>
    case VOLUME =>
    case NETWORK =>
  }

  /** A failed fetch of one kind leaves that slot and every later one as it
      was, whatever the later responses would have been. */
  lemma FailureKeepsLaterSlots(c: Collections, r: Responses, failed: ItemType)
    requires Delivered(r, failed).None?
    ensures forall t :: Position(t) >= Position(failed) ==> Slot(Refreshed(c, r), t) == Slot(c, t)
  {
    forall t | Position(t) >= Position(failed)
      ensures Slot(Refreshed(c, r), t) == Slot(c, t)
    {
      RefreshedSlots(c, r, t);
      RefreshedSlots(c, r, failed);
    }
  }

  /** A refresh in which every fetch succeeds replaces all four slots. */
  lemma FullRefresh(c: Collections, r: Responses)
    requires r.containers.Fetched? && r.images.Fetched? && r.volumes.Fetched? && r.networks.Fetched?
    ensures Refreshed(c, r) == Collections(
      r.containers.data, r.images.data, UnwrapVolumes(r.volumes.data), r.networks.data)
    ensures RequestsIssued(r) == 4
  {
  }

  /** The application state. `Node` is whatever the canvas hands to the
      selection callback. */
  class AppState<Node> {
    var containers: seq<Entity>
    var images: seq<Entity>
    var volumes: seq<Entity>
    var networks: seq<Entity>
    var selectedNode: Option<Node>
    var isLoading: bool
    var sidebarOpen: bool

    /** The four collection slots. */
    function Snapshot(): Collections
      reads this
    {
      Collections(containers, images, volumes, networks)
    }

    /** The initial state: empty collections, no selection, loading, and
        the sidebar open. */
    constructor ()
      ensures Snapshot() == Collections([], [], [], [])
      ensures selectedNode.None? && isLoading && sidebarOpen
    {
      containers := [];
      images := [];
      volumes := [];
      networks := [];
      selectedNode := None;
      isLoading := true;
      sidebarOpen := true;
    }

    /** The start of a refresh, on mount and on every poll: the loading
        flag is raised, so the sidebar shows its spinner until the refresh
        ends, and the collections are as before. */
    method BeginFetch()
      modifies this`isLoading
      ensures isLoading
      ensures Snapshot() == old(Snapshot())
    {
      isLoading := true;
    }

    /** The rest of a refresh: containers, images, volumes and networks are
        fetched in that order, each awaited before the next is issued. The
        first failure skips the rest and is only logged; the loading flag is
        lowered at the end in every case. */
    method EndFetch(r: Responses) returns (issued: nat)
      modifies this`containers, this`images, this`volumes, this`networks, this`isLoading
      ensures Snapshot() == Refreshed(old(Snapshot()), r)
      ensures !isLoading
      ensures issued == RequestsIssued(r)
    {
      issued := 1;
      if r.containers.Fetched? {
        containers := r.containers.data;
        issued := 2;
        if r.images.Fetched? {
          images := r.images.data;
          issued := 3;
          if r.volumes.Fetched? {
            volumes := UnwrapVolumes(r.volumes.data);
            issued := 4;
            if r.networks.Fetched? {
              networks := r.networks.data;
            }
          }
        }
      }
      isLoading := false;
    }

    /** One whole refresh whose fetches settle as `r`: no failure reaches
        the caller, and the refresh ends with the refreshed collections and
        the loading flag down. */
    method FetchData(r: Responses) returns (issued: nat)
      modifies this`containers, this`images, this`volumes, this`networks, this`isLoading
      ensures Snapshot() == Refreshed(old(Snapshot()), r)
      ensures !isLoading
      ensures issued == RequestsIssued(r)
    {
      BeginFetch();
      issued := EndFetch(r);
    }

    /** A node picked on the canvas replaces any earlier selection. */
    method SelectNode(node: Node)
      modifies this`selectedNode
      ensures selectedNode == Some(node)
    {
      selectedNode := Some(node);
    }

    /** Closing the details panel clears the selection. */
    method DeselectNode()
      modifies this`selectedNode
      ensures selectedNode.None?
    {
      selectedNode := None;
    }

    /** The menu button and the drawer's close both flip the sidebar. */
    method ToggleSidebar()
      modifies this`sidebarOpen
      ensures sidebarOpen == !old(sidebarOpen)
    {
      sidebarOpen := !sidebarOpen;
    }
  }

  /** A session as a user drives it: selecting A then B leaves B, deselecting
      leaves nothing, two toggles restore the sidebar, a refresh whose
      second fetch fails keeps the new containers and the old rest, and the
      next poll shows the spinner again over the same collections. */
  method SessionWalkthrough<Node>(a: Node, b: Node, cs: seq<Entity>, r: Responses)
    requires r.containers == Fetched(cs) && r.images.FetchFailed?
  {
    var app := new AppState<Node>();
    app.SelectNode(a);
    app.SelectNode(b);
    assert app.selectedNode == Some(b);
    app.DeselectNode();
    assert app.selectedNode.None?;
    app.ToggleSidebar();
    app.ToggleSidebar();
    assert app.sidebarOpen;
    var issued := app.FetchData(r);
    assert app.Snapshot() == Collections(cs, [], [], []) && !app.isLoading && issued == 2;
    app.BeginFetch();
    assert app.isLoading && app.Snapshot() == Collections(cs, [], [], []);
  }
}
