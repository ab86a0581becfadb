/** The toolbar: the search box and its results, the pull and create
    commands issued from a result, the create-container dialog and the
    notification snackbar. Network calls are not made here: how each one
    settles is a parameter of the handler that awaits it. */
module Toolbar {
  import opened Text
  import opened Resources
  import opened Search
  import opened CreateContainer

  datatype Severity = Success | Error

  /** The notification shown at the bottom right. */
  datatype Snackbar = Snackbar(open: bool, message: string, severity: Severity)

  /** How a `dockerApi` call settles: resolved, or rejected with an error
      whose `message` is given. */
  datatype ApiOutcome = Resolved | Rejected(message: string)

  /** A pull of `image:tag`. */
  datatype PullRequest = PullRequest(image: string, tag: string)

  /** Ctrl+K, or "/" without Ctrl, moves the focus to the search box. */
  function FocusesSearch(ctrlKey: bool, key: string): (focus: bool)
    ensures focus <==> key == (if ctrlKey then "k" else "/")
  {
    (ctrlKey && key == "k") || (!ctrlKey && key == "/")
  }

  /** Escape clears the search, but only while the search box has the focus;
      no key does both this and the focusing. */
  function ClearsSearch(key: string, searchHasFocus: bool): (clear: bool)
    ensures clear ==> searchHasFocus && !FocusesSearch(true, key) && !FocusesSearch(false, key)
  {
    key == "Escape" && searchHasFocus
  }

  /** Whether a key press, as written, still types its character into the
      focused text field: the document-wide handler cancels the default
      action of every key it takes as the focus shortcut, wherever the
      focus is. */
  predicate TypedAsWritten(ctrlKey: bool, key: string)
  {
    !FocusesSearch(ctrlKey, key)
  }

  /** A query holding a `/`, such as "bitnami/nginx", cannot be typed as
      written: its `/` is taken as the focus shortcut and never reaches the
      search box, nor either field of the create dialog. */
  lemma SlashNeverTyped(query: string)
    requires '/' in query
    ensures exists i :: 0 <= i < |query| && query[i] == '/' && !TypedAsWritten(false, [query[i]])
  {
    var i :| 0 <= i < |query| && query[i] == '/';
    assert [query[i]] == "/";
  }

  /** The focus shortcut as evidently intended: Ctrl+K anywhere, and a bare
      "/" only while no text field has the focus, so that inside a field
      every key without Ctrl is typed. */
  function FocusesSearchOutsideFields(ctrlKey: bool, key: string, inTextField: bool): (focus: bool)
    ensures focus ==> FocusesSearch(ctrlKey, key)
    ensures !inTextField ==> focus == FocusesSearch(ctrlKey, key)
    ensures inTextField ==> (focus <==> ctrlKey && key == "k")
  {
    (ctrlKey && key == "k") || (!ctrlKey && key == "/" && !inTextField)
  }

  /** The pull button of a result, as written: disabled while a pull is in
      flight and the last selected result has the same `name`. The `name`
      is only the last segment of the repository name, so results from
      different namespaces share it. */
  function PullDisabledAsWritten(isPulling: bool, selected: Option<SearchResult>, image: SearchResult): (disabled: bool)
    ensures disabled ==> isPulling
    ensures isPulling && selected == Some(image) ==> disabled
  {
    isPulling && selected.Some? && selected.value.name == image.name
  }

  /** Two results from the registry, "bitnami/nginx" and the official
      "nginx", stand for different images; while the first is being pulled
      the button of the second is disabled as well. */
  lemma SameNameDisablesOtherImage(pulled: RawResult, other: RawResult)
    requires pulled.repo_name == "bitnami/nginx" && other.repo_name == "nginx"
    ensures ImageName(Normalize(pulled)) != ImageName(Normalize(other))
    ensures PullDisabledAsWritten(true, Some(Normalize(pulled)), Normalize(other))
    ensures !PullDisabled(true, Some(Normalize(pulled)), Normalize(other))
  {
    NormalizeQualified("bitnami", "nginx", pulled);
    NormalizedNameParts(other);
    ImageNameOfNormalized(pulled);
    ImageNameOfNormalized(other);
  }

  /** The pull button as evidently intended: disabled while a pull is in
      flight for the very image the result stands for, and for no other. */
  function PullDisabled(isPulling: bool, selected: Option<SearchResult>, image: SearchResult): (disabled: bool)
    ensures disabled ==> isPulling && selected.Some? && ImageName(image) == ImageName(selected.value)
    ensures isPulling && selected == Some(image) ==> disabled
  {
    isPulling && selected.Some? && ImageName(selected.value) == ImageName(image)
  }

  /** The pull button guarded by the pull itself rather than by the
      selection: disabled exactly while a pull of the image the result stands
      for is awaited. Clearing the search, which drops the selection, cannot
      re-enable it. */
  function PullTargetDisabled(pending: Option<PullRequest>, image: SearchResult): (disabled: bool)
    ensures disabled ==> pending.Some?
    ensures pending.Some? ==> (disabled <==> pending.value.image == ImageName(image))
  {
    match pending
    case Some(request) => request.image == ImageName(image)
    case None => false
  }

  /** The Create button of the dialog is enabled for a non-empty name. */
  predicate CreateEnabled(containerName: string)
  {
    containerName != ""
  }

  /** The name proposed when the dialog opens: the last segment of the
      result's name, a dash and a number below 10000. It is never empty, so
      the dialog opens with Create enabled, and it holds no `/`. */
  function DefaultContainerName(imageName: string, suffix: nat): (name: string)
    requires suffix < 10000
    ensures CreateEnabled(name) && '/' !in name
    ensures var base := LastPiece(imageName, '/');
      && |name| > |base| + 1 && name[..|base|] == base && name[|base|] == '-'
      && IsDigits(name[|base| + 1..]) && DecimalValue(name[|base| + 1..]) == suffix
  {
    var base := LastPiece(imageName, '/');
    var digits := DecimalString(suffix);
    DecimalRoundTrip(suffix);
    assert (base + "-" + digits)[|base| + 1..] == digits;
    base + "-" + digits
  }

  /** The state the toolbar keeps. */
  class ToolbarState {
    var searchQuery: string
    var searchResults: seq<SearchResult>
    var isSearching: bool
    var selectedImage: Option<SearchResult>
    var isPulling: bool
    var createDialogOpen: bool
    var containerName: string
    var containerPorts: string
    var snackbar: Snackbar
    /** The pull the pull handler is suspended on: its image reference and
        tag, held in the handler's locals while it awaits the pull. */
    var pendingPull: Option<PullRequest>

    /** The initial state: nothing typed, found, selected or in flight. */
    constructor ()
      ensures searchQuery == "" && searchResults == [] && !isSearching
      ensures selectedImage.None? && !isPulling
      ensures !createDialogOpen && containerName == "" && containerPorts == ""
      ensures snackbar == Snackbar(false, "", Success) && pendingPull.None?
    {
      searchQuery := "";
      searchResults := [];
      isSearching := false;
      selectedImage := None;
      isPulling := false;
      createDialogOpen := false;
      containerName := "";
      containerPorts := "";
      snackbar := Snackbar(false, "", Success);
      pendingPull := None;
    }

    /** Typing in the search box, or its clear button (which types ""). */
    method SetSearchQuery(query: string)
      modifies this`searchQuery
      ensures searchQuery == query
    {
      searchQuery := query;
    }

    /** The search function up to its request: nothing for an empty query;
        otherwise the spinner is on and the request is issued. */
    method BeginSearch(query: string) returns (issued: bool)
      modifies this`isSearching
      ensures issued == (query != "")
      ensures isSearching == (issued || old(isSearching))
    {
      if query == "" {
        return false;
      }
      isSearching := true;
      issued := true;
    }

    /** The search function once its request has settled: the ranked
        results on success, an empty list on any failure, and the spinner
        off in every case. */
    method EndSearch(response: SearchResponse)
      modifies this`searchResults, this`isSearching
      ensures searchResults == ResultsAfter(response)
      ensures !isSearching
    {
      match response {
        case Answered(items) =>
          var formatted := NormalizeAll(items);
          searchResults := Rank(formatted);
        case NotOk =>
          searchResults := [];
        case Threw =>
          searchResults := [];
      }
      isSearching := false;
    }

    /** The whole search function for a request that settles as `response`. */
    method SearchDockerHub(query: string, response: SearchResponse) returns (issued: bool)
      modifies this`searchResults, this`isSearching
      ensures issued == (query != "")
      ensures issued ==> searchResults == ResultsAfter(response) && !isSearching
      ensures !issued ==> unchanged(this)
    {
      issued := BeginSearch(query);
      if issued {
        EndSearch(response);
      }
    }

    /** The debounce timer firing: a query shorter than two characters
        issues nothing and leaves the results as they were. */
    method DebounceElapsed(response: SearchResponse) returns (issued: bool)
      modifies this`searchResults, this`isSearching
      ensures issued == ShouldQuery(searchQuery)
      ensures issued ==> searchResults == ResultsAfter(response) && !isSearching
      ensures !issued ==> unchanged(this)
    {
      issued := false;
      if ShouldQuery(searchQuery) {
        issued := SearchDockerHub(searchQuery, response);
      }
    }

    /** Escape in the search box: the query, the results and the selected
        result are cleared. */
    method ClearSearch()
      modifies this`searchQuery, this`searchResults, this`selectedImage
      ensures searchQuery == "" && searchResults == [] && selectedImage.None?
    {
      searchQuery := "";
      searchResults := [];
      selectedImage := None;
    }

    /** After a pull has started: the query and the results are cleared. */
    method CloseSearch()
      modifies this`searchQuery, this`searchResults
      ensures searchQuery == "" && searchResults == []
    {
      searchQuery := "";
      searchResults := [];
    }

    /** The document-wide key handler. It answers whether the search box is
        to take the focus; Escape in the search box clears the search. */
    method HandleKeyDown(ctrlKey: bool, key: string, searchHasFocus: bool) returns (focusSearch: bool)
      modifies this`searchQuery, this`searchResults, this`selectedImage
      ensures focusSearch == FocusesSearch(ctrlKey, key)
      ensures ClearsSearch(key, searchHasFocus) ==>
        searchQuery == "" && searchResults == [] && selectedImage.None?
      ensures !ClearsSearch(key, searchHasFocus) ==> unchanged(this)
    {
      focusSearch := FocusesSearch(ctrlKey, key);
      if ClearsSearch(key, searchHasFocus) {
        ClearSearch();
      }
    }

    /** The pull handler up to its request: the result becomes the selected
        one, the in-flight flag is raised, and a pull of the result's image
        reference with the tag "latest" is issued and awaited. The button as
        written is then disabled for every result with the same last name
        segment; the corrected buttons for exactly the results that stand for
        the same image. */
    method BeginPull(image: Option<SearchResult>) returns (request: Option<PullRequest>)
      modifies this`isPulling, this`selectedImage, this`pendingPull
      ensures image.None? ==> request.None? && unchanged(this)
      ensures image.Some? ==>
        && isPulling && selectedImage == image
        && request == Some(PullRequest(ImageName(image.value), "latest"))
        && pendingPull == request
      ensures image.Some? ==>
        forall r :: PullDisabledAsWritten(isPulling, selectedImage, r) <==> r.name == image.value.name
      ensures image.Some? ==>
        forall r :: PullDisabled(isPulling, selectedImage, r) <==> ImageName(r) == ImageName(image.value)
      ensures image.Some? ==>
        forall r :: PullTargetDisabled(pendingPull, r) <==> ImageName(r) == ImageName(image.value)
    {
      if image.None? {
        return None;
      }
      isPulling := true;
      selectedImage := image;
      var imageName := ImageName(image.value);
      var tag := "latest";
      request := Some(PullRequest(imageName, tag));
      pendingPull := request;
    }

    /** The pull handler once the pull has settled: a success notice and a
        cleared search, or an error notice carrying the error's message;
        the in-flight flag is lowered either way. */
    method EndPull(request: PullRequest, outcome: ApiOutcome)
      modifies this`snackbar, this`isPulling, this`searchQuery, this`searchResults, this`pendingPull
      ensures !isPulling && pendingPull.None?
      ensures outcome.Resolved? ==>
        && snackbar == Snackbar(true, "Started pulling " + request.image + ":" + request.tag, Success)
        && searchQuery == "" && searchResults == []
      ensures outcome.Rejected? ==>
        && snackbar == Snackbar(true, "Failed to pull image: " + outcome.message, Error)
        && searchQuery == old(searchQuery) && searchResults == old(searchResults)
    {
      match outcome {
        case Resolved =>
          snackbar := Snackbar(true, "Started pulling " + request.image + ":" + request.tag, Success);
          CloseSearch();
        case Rejected(message) =>
          snackbar := Snackbar(true, "Failed to pull image: " + message, Error);
      }
      isPulling := false;
      pendingPull := None;
    }

    /** The whole pull handler for a pull that settles as `outcome`. */
    method PullImage(image: Option<SearchResult>, outcome: ApiOutcome) returns (request: Option<PullRequest>)
      modifies this`isPulling, this`selectedImage, this`snackbar, this`searchQuery, this`searchResults, this`pendingPull
      ensures image.None? ==> request.None? && unchanged(this)
      ensures image.Some? ==>
        && request == Some(PullRequest(ImageName(image.value), "latest"))
        && selectedImage == image && !isPulling && pendingPull.None?
        && snackbar.open
        && (snackbar.severity == Success <==> outcome.Resolved?)
        && (outcome.Resolved? ==> searchQuery == "" && searchResults == [])
      ensures image.Some? && outcome.Resolved? ==>
        snackbar == Snackbar(true, "Started pulling " + ImageName(image.value) + ":latest", Success)
      ensures image.Some? && outcome.Rejected? ==>
        && snackbar == Snackbar(true, "Failed to pull image: " + outcome.message, Error)
        && searchQuery == old(searchQuery) && searchResults == old(searchResults)
    {
      request := BeginPull(image);
      if request.Some? {
        EndPull(request.value, outcome);
      }
    }

    /** The create button of a result: it becomes the selected one and the
        dialog opens with a proposed name; `suffix` stands for the random
        number `Math.floor(Math.random() * 10000)`. */
    method OpenCreateDialog(image: Option<SearchResult>, suffix: nat)
      requires suffix < 10000
      modifies this`selectedImage, this`createDialogOpen, this`containerName
      ensures image.None? ==> unchanged(this)
      ensures image.Some? ==>
        && selectedImage == image && createDialogOpen
        && containerName == DefaultContainerName(image.value.name, suffix)
        && CreateEnabled(containerName)
    {
      if image.None? {
        return;
      }
      selectedImage := image;
      createDialogOpen := true;
      containerName := DefaultContainerName(image.value.name, suffix);
    }

    /** Cancel, or a click outside the dialog. */
    method CloseCreateDialog()
      modifies this`createDialogOpen
      ensures !createDialogOpen
    {
      createDialogOpen := false;
    }

    /** Typing in the dialog's name field. */
    method SetContainerName(name: string)
      modifies this`containerName
      ensures containerName == name
    {
      containerName := name;
    }

    /** Typing in the dialog's port-mapping field. */
    method SetContainerPorts(ports: string)
      modifies this`containerPorts
      ensures containerPorts == ports
    {
      containerPorts := ports;
    }

    /** The dialog's submit handler for a create request that settles as
        `outcome`. Without a selected result nothing happens. Otherwise the
        request carries the name verbatim, the image reference tagged
        "latest" and the parsed ports; on success a notice names the
        container and the dialog closes, on failure an error notice carries
        the error's message and the dialog stays as it was. */
    method SubmitCreateContainer(outcome: ApiOutcome) returns (request: Option<ContainerConfig>)
      modifies this`snackbar, this`createDialogOpen
      ensures selectedImage.None? ==> request.None? && unchanged(this)
      ensures selectedImage.Some? ==>
        && request.Some?
        && request.value.name == containerName
        && request.value.Image == ImageName(selectedImage.value) + ":latest"
        && request.value.HostConfig.PortBindings == PortBindingsFor(containerPorts)
        && request.value.ExposedPorts == ExposedPortsFor(containerPorts)
      ensures selectedImage.Some? && outcome.Resolved? ==>
        && snackbar == Snackbar(true, "Container " + containerName + " created successfully", Success)
        && !createDialogOpen
      ensures selectedImage.Some? && outcome.Rejected? ==>
        && snackbar == Snackbar(true, "Failed to create container: " + outcome.message, Error)
        && createDialogOpen == old(createDialogOpen)
    {
      if selectedImage.None? {
        return None;
      }
      var containerConfig := BuildContainerConfig(containerName, selectedImage.value, containerPorts);
      request := Some(containerConfig);
      match outcome {
        case Resolved =>
          snackbar := Snackbar(true, "Container " + containerName + " created successfully", Success);
          CloseCreateDialog();
        case Rejected(message) =>
          snackbar := Snackbar(true, "Failed to create container: " + message, Error);
      }
    }

    /** Dismissing the snackbar, or its auto-hide: it closes and keeps its
        message and severity. */
    method CloseSnackbar()
      modifies this`snackbar
      ensures snackbar == old(snackbar).(open := false)
    {
      snackbar := snackbar.(open := false);
    }
  }

  /** Escape in the search box while a pull is in flight: the search is
      cleared and with it the selected result, so the button as written is
      enabled again for the very result being pulled although the pull is
      still in flight; the button guarded by the pending pull stays
      disabled. */
  method EscapeDuringPull(image: SearchResult) returns (stillPulling: bool, disabledAsWritten: bool, disabledByTarget: bool)
    ensures stillPulling && !disabledAsWritten && disabledByTarget
  {
    var toolbar := new ToolbarState();
    var request := toolbar.BeginPull(Some(image));
    var focus := toolbar.HandleKeyDown(false, "Escape", true);
    stillPulling := toolbar.isPulling;
    disabledAsWritten := PullDisabledAsWritten(toolbar.isPulling, toolbar.selectedImage, image);
    disabledByTarget := PullTargetDisabled(toolbar.pendingPull, image);
  }
}
