/** The `ContentImage` element: drag handles that resize the image, and the
    CSS classes chosen from its size and object-fit style. Sizes are whole
    pixels here. */
module ImageResize {
  import opened Wrappers

  /** No drag makes a dimension the handle moves smaller than this. */
  const MIN_SIZE: int := 50

  /** The object-fit values the element distinguishes; every other value of the
      enumeration is treated alike. */
  datatype ObjectFit = Cover | Contain | OtherFit(name: string)

  /** The image's style as stored in the form: width and height may be unset. */
  datatype ImageStyle = ImageStyle(width: Option<int>, height: Option<int>, objectFit: ObjectFit)

  /** What mouse-down records: the pointer and the size the drag starts from. */
  datatype StartPos = StartPos(x: int, y: int, width: int, height: int)

  /** The container's measured box. */
  datatype Rect = Rect(width: nat, height: nat)

  datatype Size = Size(width: int, height: int)

  function Max(a: int, b: int): int
  {
    if a >= b then a else b
  }

  /** A stored dimension counts as set when it is present and not zero. */
  predicate IsSet(dimension: Option<int>)
  {
    dimension.Some? && dimension.value != 0
  }

  /** `hasCustomSize`: both stored dimensions are set. */
  predicate HasCustomSize(style: ImageStyle)
  {
    IsSet(style.width) && IsSet(style.height)
  }

  /** The container's sizing: with a custom size it takes the stored width and
      height as its inline style and no sizing class; otherwise it fills its
      parent and has no inline size. */
  function ContainerSizing(style: ImageStyle): (sizing: (string, Option<(int, int)>))
    ensures sizing.0 == "" <==> HasCustomSize(style)
    ensures sizing.1.Some? <==> HasCustomSize(style)
    ensures sizing.1.Some? ==> Some(sizing.1.value.0) == style.width && Some(sizing.1.value.1) == style.height
  {
    if HasCustomSize(style) then ("", Some((style.width.value, style.height.value)))
    else ("h-full w-full", None)
  }

  /** The `<img>` object-fit class. */
  function ObjectFitClass(fit: ObjectFit): (cls: string)
    ensures cls == "object-cover" <==> fit == Cover
    ensures cls == "object-contain" <==> fit == Contain
    ensures cls == "" <==> fit.OtherFit?
  {
    if fit == Cover then "object-cover"
    else if fit == Contain then "object-contain"
    else ""
  }

  /** The `<img>` sizing class: the image shrinks to its own size only when it
      has no custom size and is set to contain. */
  function SizeClass(style: ImageStyle): (cls: string)
    ensures cls == "w-fit h-fit" <==> !HasCustomSize(style) && style.objectFit == Contain
    ensures cls != "w-fit h-fit" ==> cls == "w-full h-full"
  {
    if HasCustomSize(style) then "w-full h-full"
    else if style.objectFit == Cover then "w-full h-full"
    else if style.objectFit == Contain then "w-fit h-fit"
    else "w-full h-full"
  }

  /** The size a drag to (`clientX`, `clientY`) gives: a handle containing
      `e` or `w` moves the width, one containing `s` or `n` the height, by the
      pointer's offset from where the drag started (`w` and `n` win over `e`
      and `s`). */
  function ResizedSize(start: StartPos, handle: string, clientX: int, clientY: int): (size: Size)
    ensures 'e' in handle || 'w' in handle ==> size.width >= MIN_SIZE
    ensures 's' in handle || 'n' in handle ==> size.height >= MIN_SIZE
    ensures 'e' !in handle && 'w' !in handle ==> size.width == start.width
    ensures 's' !in handle && 'n' !in handle ==> size.height == start.height
  {
    var deltaX := clientX - start.x;
    var deltaY := clientY - start.y;
    Size(
      if 'w' in handle then Max(MIN_SIZE, start.width - deltaX)
      else if 'e' in handle then Max(MIN_SIZE, start.width + deltaX)
      else start.width,
      if 'n' in handle then Max(MIN_SIZE, start.height - deltaY)
      else if 's' in handle then Max(MIN_SIZE, start.height + deltaY)
      else start.height)
  }

  /** A corner handle moves both dimensions. */
  predicate IsCorner(handle: string)
  {
    ('e' in handle || 'w' in handle) && ('s' in handle || 'n' in handle)
  }

  /** The resize state of one image element. */
  class ContentImage {
    /** `image.style` in the form. */
    var style: ImageStyle
    var isResizing: bool
    var resizeHandle: Option<string>
    /** `startPosRef.current`. */
    var startPos: Option<StartPos>

    constructor (style: ImageStyle)
      ensures this.style == style && !isResizing && resizeHandle == None && startPos == None
    {
      this.style := style;
      isResizing := false;
      resizeHandle := None;
      startPos := None;
    }

    /** A mouse move resizes only while resizing, with a recorded start and a
        non-empty handle. */
    predicate Tracking()
      reads this
    {
      isResizing && startPos.Some? && resizeHandle.Some? && resizeHandle.value != ""
    }

    /** `handleMouseDown(e, handle)`: start resizing with `handle`; with a
        container, record the pointer and the start size (the stored
        dimension when set, the measured one otherwise). Without a container
        the previous start is left as it was. */
    method HandleMouseDown(clientX: int, clientY: int, handle: string, container: Option<Rect>)
      modifies this
      ensures isResizing && resizeHandle == Some(handle) && style == old(style)
      ensures container.None? ==> startPos == old(startPos)
      ensures container.Some? ==> startPos == Some(StartPos(clientX, clientY,
        if IsSet(style.width) then style.width.value else container.value.width,
        if IsSet(style.height) then style.height.value else container.value.height))
      ensures container.None? && old(startPos).None? ==> !Tracking()
    {
      isResizing := true;
      resizeHandle := Some(handle);
      if container.None? {
        return;
      }
      var rect := container.value;
      var currentWidth := if IsSet(style.width) then style.width.value else rect.width;
      var currentHeight := if IsSet(style.height) then style.height.value else rect.height;
      startPos := Some(StartPos(clientX, clientY, currentWidth, currentHeight));
    }

    /** `handleMouseMove(e)`: while tracking, write the size computed from the
        start of the drag into the stored style; otherwise do nothing. The
        resize state itself never changes here, so sizes never accumulate. */
    method HandleMouseMove(clientX: int, clientY: int)
      modifies this
      ensures isResizing == old(isResizing) && resizeHandle == old(resizeHandle) && startPos == old(startPos)
      ensures !old(Tracking()) ==> style == old(style)
      ensures old(Tracking()) ==>
        var size := ResizedSize(startPos.value, resizeHandle.value, clientX, clientY);
        style == old(style).(width := Some(size.width), height := Some(size.height))
      ensures old(Tracking()) && IsCorner(resizeHandle.value) ==> HasCustomSize(style)
    {
      if !isResizing || startPos.None? || resizeHandle.None? || resizeHandle.value == "" {
        return;
      }
      var start := startPos.value;
      var handle := resizeHandle.value;
      var deltaX := clientX - start.x;
      var deltaY := clientY - start.y;
      var newWidth := start.width;
      var newHeight := start.height;
      if 'e' in handle { newWidth := Max(MIN_SIZE, start.width + deltaX); }
      if 'w' in handle { newWidth := Max(MIN_SIZE, start.width - deltaX); }
      if 's' in handle { newHeight := Max(MIN_SIZE, start.height + deltaY); }
      if 'n' in handle { newHeight := Max(MIN_SIZE, start.height - deltaY); }
      style := style.(width := Some(newWidth), height := Some(newHeight));
    }

    /** `handleMouseUp()`: stop resizing and forget the handle and the start. */
    method HandleMouseUp()
      modifies this
      ensures !isResizing && resizeHandle == None && startPos == None && style == old(style)
      ensures !Tracking()
    {
      isResizing := false;
      resizeHandle := None;
      startPos := None;
    }
  }

  /** Sizes are measured from the start of the drag, not from the previous
      move: a move to (`x1`, `y1`) followed by a move to (`x2`, `y2`) leaves
      the style one move to (`x2`, `y2`) gives, and the drag's state as it was. */
  method LastMoveDecides(image: ContentImage, x1: int, y1: int, x2: int, y2: int)
    modifies image
    ensures image.isResizing == old(image.isResizing) && image.resizeHandle == old(image.resizeHandle)
    ensures image.startPos == old(image.startPos)
    ensures image.style == old(
      if image.Tracking()
      then var size := ResizedSize(image.startPos.value, image.resizeHandle.value, x2, y2);
           image.style.(width := Some(size.width), height := Some(size.height))
      else image.style)
  {
    image.HandleMouseMove(x1, y1);
    image.HandleMouseMove(x2, y2);
  }
}
