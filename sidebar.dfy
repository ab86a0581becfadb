/** The sidebar: one tab per resource kind, listing the current collection
    as draggable items. Everything here is computed from the collections,
    the loading flag and the selected tab. */
module Sidebar {
  import opened Resources

  /** What a drag carries, `{type, data: item}`: the list's type and the
      listed object itself. */
  datatype DragPayload = DragPayload(itemType: ItemType, data: Entity)

  /** The payload of a draggable item: the list's type and the item the row
      is drawn for. */
  function BeginDrag(itemType: ItemType, item: Entity): (payload: DragPayload)
    ensures payload.itemType == itemType && payload.data == item
  {
    DragPayload(itemType, item)
  }

  /** The drag type as the drop side sees it. */
  function TypeName(t: ItemType): (name: string)
    ensures name in {"CONTAINER", "IMAGE", "VOLUME", "NETWORK"}
  {
    match t
    case CONTAINER => "CONTAINER"
    case IMAGE => "IMAGE"
    case VOLUME => "VOLUME"
    case NETWORK => "NETWORK"
  }

  /** Distinct kinds are dragged under distinct type names. */
  lemma TypeNamesDistinct(t: ItemType, u: ItemType)
    ensures TypeName(t) == TypeName(u) ==> t == u
  {
    match t
    case CONTAINER =>
    case IMAGE =>
    case VOLUME =>
    case NETWORK =>
  }

  /** `s.replace(/^\//, '')`: at most one leading `/` removed. */
  function StripLeadingSlash(s: string): (r: string)
    ensures |r| <= |s| <= |r| + 1 && s[|s| - |r|..] == r
    ensures |s| > |r| <==> |s| > 0 && s[0] == '/'
  {
    if |s| > 0 && s[0] == '/' then s[1..] else s
  }

  /** `Id?.substring(0, 12)`: the first twelve characters of the id, all of
      it when shorter; nothing is shown without an id. */
  function IdPrefix(id: Option<string>): (p: string)
    ensures |p| <= 12
    ensures id.Some? ==> |p| == (if |id.value| < 12 then |id.value| else 12) && id.value[..|p|] == p
    ensures id.None? ==> p == ""
  {
    match id
    case Some(s) => if |s| < 12 then s else s[..12]
    case None => ""
  }

  /** The text of a draggable item. With a `Names` list it is the first name
      with at most one leading `/` removed; an empty `Names` list makes the
      expression throw, modelled as `None`. Otherwise it is the first
      non-empty of `name` and `Name`, and else the id prefix. */
  function Label(item: Entity): (shown: Option<string>)
    ensures shown.None? <==> item.Names == Some([])
    ensures item.Names.Some? && shown.Some? ==>
      shown.value == StripLeadingSlash(item.Names.value[0])
    ensures item.Names.None? && Truthy(item.name) ==> shown == item.name
    ensures item.Names.None? && !Truthy(item.name) && Truthy(item.Name) ==> shown == item.Name
    ensures item.Names.None? && !Truthy(item.name) && !Truthy(item.Name) ==>
      shown == Some(IdPrefix(item.Id))
  {
    match item.Names
    case Some(names) =>
      if |names| == 0 then None else Some(StripLeadingSlash(names[0]))
    case None =>
      if Truthy(item.name) then item.name
      else if Truthy(item.Name) then item.Name
      else Some(IdPrefix(item.Id))
  }

  /** When the label falls back to the id it is a prefix of the id of at
      most twelve characters; a container name loses its leading `/`. */
  lemma LabelFallbacks(item: Entity)
    ensures item.Names.None? && !Truthy(item.name) && !Truthy(item.Name) && item.Id.Some? ==>
      var l := Label(item).value; |l| <= 12 && |l| <= |item.Id.value| && item.Id.value[..|l|] == l
    ensures item.Names.Some? && |item.Names.value| > 0 && item.Names.value[0] != [] && item.Names.value[0][0] == '/' ==>
      Label(item) == Some(item.Names.value[0][1..])
  {
  }

  datatype IconColor = SuccessColor | DisabledColor

  datatype Icon = ContainerIcon(color: IconColor) | ImageIcon | VolumeIcon | NetworkIcon

  /** The icon of a listed object; a container's is green exactly when it
      is running. */
  function IconFor(t: ItemType, item: Entity): (icon: Icon)
    ensures icon.ContainerIcon? <==> t == CONTAINER
    ensures t == CONTAINER ==> (icon.color == SuccessColor <==> item.State == Some("running"))
  {
    match t
    case CONTAINER => ContainerIcon(if item.State == Some("running") then SuccessColor else DisabledColor)
    case IMAGE => ImageIcon
    case VOLUME => VolumeIcon
    case NETWORK => NetworkIcon
  }

  /** The tooltip of a listed object; `None` is an undefined title, which
      shows no tooltip. A container shows its image, an image its first
      repository tag or "No tag" without a tag list, a volume or a network
      its driver. An empty tag list is truthy, so it gives no tooltip at
      all rather than "No tag". */
  function TooltipFor(t: ItemType, item: Entity): (tooltip: Option<string>)
    ensures t == CONTAINER ==> tooltip == item.Image
    ensures t == IMAGE ==>
      && (item.RepoTags.None? ==> tooltip == Some("No tag"))
      && (item.RepoTags.Some? && |item.RepoTags.value| > 0 ==> tooltip == Some(item.RepoTags.value[0]))
      && (item.RepoTags == Some([]) ==> tooltip.None?)
    ensures t == VOLUME || t == NETWORK ==> tooltip == item.Driver
  {
    match t
    case CONTAINER => item.Image
    case IMAGE =>
      (match item.RepoTags
       case Some(tags) => if |tags| > 0 then Some(tags[0]) else None
       case None => Some("No tag"))
    case VOLUME => item.Driver
    case NETWORK => item.Driver
  }

  /** The message of an empty tab. */
  function EmptyMessage(t: ItemType): string
  {
    match t
    case CONTAINER => "No containers found"
    case IMAGE => "No images found"
    case VOLUME => "No volumes found"
    case NETWORK => "No networks found"
  }

  /** One listed object as rendered. */
  datatype Row = Row(payload: DragPayload, text: Option<string>, tooltip: Option<string>, icon: Icon)

  /** What the drawer shows below the tab bar. */
  datatype Body = Spinner | NotFound(message: string) | Rows(rows: seq<Row>) | Blank

  /** The row of one listed object. */
  function RowFor(t: ItemType, item: Entity): Row
  {
    Row(BeginDrag(t, item), Label(item), TooltipFor(t, item), IconFor(t, item))
  }

  /** The drawer body for the selected tab: a spinner and no list at all
      while loading; otherwise the tab's message when its collection is
      empty, and else one row per object, in order, each dragged as that
      object under the tab's type and shown with its label, tooltip and
      icon. */
  function SidebarBody(isLoading: bool, c: Collections, tabValue: nat): (body: Body)
    ensures isLoading <==> body.Spinner?
    ensures !isLoading && tabValue < 4 && Slot(c, KindAt(tabValue)) == [] ==>
      body == NotFound(EmptyMessage(KindAt(tabValue)))
    ensures !isLoading && tabValue < 4 && Slot(c, KindAt(tabValue)) != [] ==>
      var items := Slot(c, KindAt(tabValue));
      && body.Rows? && |body.rows| == |items|
      && forall i :: 0 <= i < |items| ==>
        && body.rows[i].payload == DragPayload(KindAt(tabValue), items[i])
        && body.rows[i].text == Label(items[i])
        && body.rows[i].tooltip == TooltipFor(KindAt(tabValue), items[i])
        && body.rows[i].icon == IconFor(KindAt(tabValue), items[i])
    ensures !isLoading && tabValue >= 4 ==> body == Blank
  {
    if isLoading then Spinner
    else if tabValue >= 4 then Blank
    else
      var t := KindAt(tabValue);
      var items := Slot(c, t);
      if |items| == 0 then NotFound(EmptyMessage(t))
      else Rows(seq(|items|, i requires 0 <= i < |items| => RowFor(t, items[i])))
  }

  /** The type tags are fixed per list: the containers are dragged as
      CONTAINER, the images as IMAGE, the volumes as VOLUME and the
      networks as NETWORK. */
  lemma TabsTagTheirKinds(c: Collections, tabValue: nat, i: nat)
    requires tabValue < 4
    requires SidebarBody(false, c, tabValue).Rows?
    requires i < |SidebarBody(false, c, tabValue).rows|
    ensures var p := SidebarBody(false, c, tabValue).rows[i].payload;
      && (tabValue == 0 ==> p == DragPayload(CONTAINER, c.containers[i]))
      && (tabValue == 1 ==> p == DragPayload(IMAGE, c.images[i]))
      && (tabValue == 2 ==> p == DragPayload(VOLUME, c.volumes[i]))
      && (tabValue == 3 ==> p == DragPayload(NETWORK, c.networks[i]))
  {
    assert [CONTAINER, IMAGE, VOLUME, NETWORK][tabValue] == KindAt(tabValue);
  }
}
