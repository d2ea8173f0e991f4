/**
 * The front-end record of one layer as its client requested it: creation from LayerCreationArgs,
 * the merge of a client transaction into it (which records what changed), and the geometry and
 * composition queries derived from it.
 *
 * `layer_state_t::merge` and `layer_state_t::diff` belong to layer_state_t, which is not part of
 * this model: a transaction arrives here with the field values that merge leaves behind and the
 * bits that diff reports. The masks grouping state bits into change categories are defined with
 * layer_state_t as well and are a parameter of Merge.
 */
module LayerStates {
  import Wrappers
  import opened Integers

  /** UNASSIGNED_LAYER_ID */
  const UNASSIGNED_LAYER_ID: int := -1
  /** ui::INVALID_LAYER_STACK, the uint32 all-ones id. */
  const INVALID_LAYER_STACK: int := 0xFFFF_FFFF
  const DEFAULT_LAYER_STACK: int := 0
  /** ui::Transform::ROT_90, the orientation bit that swaps width and height. */
  const ROT_90: nat := 4

  /** ISurfaceComposerClient creation flags. */
  datatype CreationFlag =
    | eHidden | eOpaque | eSecure | eSkipScreenshot | eNonPremultiplied | eCursorWindow
    | eProtectedByApp | eNoColorFill | OtherCreationFlag(bit: nat)

  /** layer_state_t layer flags. */
  datatype LayerFlag =
    | eLayerHidden | eLayerOpaque | eLayerSecure | eLayerSkipScreenshot
    | eIgnoreDestinationFrame | eLayerIsDisplayDecoration | OtherLayerFlag(bit: nat)

  /** layer_state_t `what` bits. */
  datatype StateBit =
    | eFlagsChanged | eBufferChanged | eSidebandStreamChanged | eAlphaChanged
    | eBackgroundBlurRadiusChanged | eBlurRegionsChanged | eColorTransformChanged
    | eLayerChanged | eRelativeLayerChanged | eLayerStackChanged | eReparent
    | eInputInfoChanged | eMetadataChanged | eFrameRateChanged | OtherStateBit(bit: nat)

  /** RequestedLayerState::Changes. */
  datatype Change =
    | Created | Metadata | Mirror | Visibility | VisibleRegion | Geometry | Buffer | BufferSize
    | Input | SidebandStream | Hierarchy | Content | AffectsChildren | Z | Parent | RelativeParent
    | GameMode | FrameRate

  /** The composer3 composition types a layer can ask for. */
  datatype Composition = SIDEBAND | SOLID_COLOR | DISPLAY_DECORATION | CURSOR | DEVICE

  /** layer_state_t's change-category masks. */
  datatype ChangeMasks = ChangeMasks(
    hierarchy: set<StateBit>, content: set<StateBit>, geometry: set<StateBit>,
    affectsChildren: set<StateBit>, input: set<StateBit>, visibleRegion: set<StateBit>)

  // ---------------------------------------------------------------------------------------------
  // Rectangles

  /** ui::Rect: edges, with `right` and `bottom` exclusive. */
  datatype Rect = Rect(left: int, top: int, right: int, bottom: int) {
    function Width(): int { right - left }
    function Height(): int { bottom - top }
    predicate IsEmpty() { Width() <= 0 || Height() <= 0 }
    predicate IsValid() { Width() >= 0 && Height() >= 0 }
    /** The point (x, y) lies inside: left and top inclusive, right and bottom exclusive. */
    predicate Contains(x: int, y: int) { left <= x < right && top <= y < bottom }

    /** The overlap with `other`; it is empty when they do not overlap. */
    function Intersect(other: Rect): (r: Rect)
    {
      Rect(Max(left, other.left), Max(top, other.top), Min(right, other.right), Min(bottom, other.bottom))
    }
  }

  function Max(a: int, b: int): int { if a >= b then a else b }
  function Min(a: int, b: int): int { if a <= b then a else b }

  /** Rect::INVALID_RECT */
  const INVALID_RECT := Rect(0, 0, -1, -1)

  /** A point lies in the intersection iff it lies in both rectangles. */
  lemma IntersectIsOverlap(a: Rect, b: Rect, x: int, y: int)
    ensures var r := a.Intersect(b);
            (r.left <= x < r.right && r.top <= y < r.bottom)
            <==> (a.left <= x < a.right && a.top <= y < a.bottom && b.left <= x < b.right && b.top <= y < b.bottom)
  {
  }

  /** Intersecting is commutative and idempotent. */
  lemma IntersectAlgebra(a: Rect, b: Rect)
    ensures a.Intersect(b) == b.Intersect(a)
    ensures a.Intersect(b).Intersect(b) == a.Intersect(b)
    ensures a.Intersect(a) == a
  {
  }

  /** A non-empty intersection lies within both rectangles and is no larger than either. */
  lemma IntersectWithin(a: Rect, b: Rect)
    requires !a.Intersect(b).IsEmpty()
    ensures var r := a.Intersect(b);
            a.left <= r.left && r.right <= a.right && a.top <= r.top && r.bottom <= a.bottom
            && b.left <= r.left && r.right <= b.right && b.top <= r.top && r.bottom <= b.bottom
            && r.Width() <= a.Width() && r.Width() <= b.Width() && r.Height() <= a.Height() && r.Height() <= b.Height()
  {
  }

  // ---------------------------------------------------------------------------------------------
  // Values the layer is made from

  /** The buffer attached to a layer: its dimensions, uint32 each. */
  datatype Texture = Texture(width: nat, height: nat) {
    predicate Wellformed() { width < UINT32_LIMIT && height < UINT32_LIMIT }
    /** getBounds(): the whole buffer. */
    function Bounds(): Rect { Rect(0, 0, width, height) }
  }

  /** A buffer's size as ui::Size; no buffer has the invalid size, which no texture has. */
  function SizeOf(texture: Wrappers.Option<Texture>): Wrappers.Option<(nat, nat)>
  {
    if texture.Some? then Wrappers.Some((texture.value.width, texture.value.height)) else Wrappers.None
  }

  /** The bookkeeping of a buffer: its frame number, producer, and whether the client set the number. */
  datatype BufferData = BufferData(frameNumber: nat, producerId: int, frameNumberChanged: bool)

  datatype LayerCreationArgs = LayerCreationArgs(
    sequence: nat, addToRoot: bool, flags: set<CreationFlag>, parentId: int,
    layerIdToMirror: int, layerStackToMirror: int, ownerUid: int, ownerPid: int)

  /** The field values layer_state_t::merge leaves on the layer for the fields merge consults. */
  datatype MergedFields = MergedFields(
    flags: set<LayerFlag>, alpha: real, hasSidebandStream: bool, backgroundBlurRadius: int,
    blurRegionCount: nat, bufferData: BufferData, colorTransformIsIdentity: bool)

  /**
   * One client transaction for this layer: the bits it sets, the bits layer_state_t::diff reports
   * against the current state, the merged field values, the game mode found in its metadata
   * (-1 when absent), and what the front end resolved from it.
   */
  datatype ResolvedComposerState = ResolvedComposerState(
    what: set<StateBit>, diff: set<StateBit>, merged: MergedFields, metadataGameMode: int,
    externalTexture: Wrappers.Option<Texture>, parentId: int, relativeParentId: int, touchCropId: int)

  /** The fields a merge takes over from the transaction, as one value. */
  datatype FieldState = FieldState(
    what: set<StateBit>, flags: set<LayerFlag>, alpha: real, hasSidebandStream: bool,
    backgroundBlurRadius: int, blurRegionCount: nat, hasColorTransform: bool, touchCropId: int, gameMode: int)
  {
    predicate HasBlur() { backgroundBlurRadius > 0 || blurRegionCount > 0 }
  }

  /** A layer's buffer, its bookkeeping, and the barrier of the newest buffer seen. */
  datatype BufferState = BufferState(
    texture: Wrappers.Option<Texture>, data: BufferData, barrierProducerId: int, barrierFrameNumber: nat)

  /** A layer's place in the hierarchy. */
  datatype HierarchyState = HierarchyState(
    parentId: int, canBeRoot: bool, isRelativeOf: bool, relativeParentId: int)
  {
    /** A root layer may be placed at the root and has no parent. */
    predicate IsRoot()
    {
      canBeRoot && parentId == UNASSIGNED_LAYER_ID
    }

    /**
     * The layer is relative to some layer other than its own parent; a relative link to no layer
     * counts, though that layer is then unreachable.
     */
    predicate HasValidRelativeParent()
    {
      isRelativeOf && (parentId != relativeParentId || relativeParentId == UNASSIGNED_LAYER_ID)
    }
  }

  /** The layer flags the creation flags ask for; nothing else is set at creation. */
  function CreationLayerFlags(creation: set<CreationFlag>): (r: set<LayerFlag>)
    ensures eLayerHidden in r <==> eHidden in creation
    ensures eLayerOpaque in r <==> eOpaque in creation
    ensures eLayerSecure in r <==> eSecure in creation
    ensures eLayerSkipScreenshot in r <==> eSkipScreenshot in creation
    ensures r <= {eLayerHidden, eLayerOpaque, eLayerSecure, eLayerSkipScreenshot}
  {
    (if eHidden in creation then {eLayerHidden} else {})
    + (if eOpaque in creation then {eLayerOpaque} else {})
    + (if eSecure in creation then {eLayerSecure} else {})
    + (if eSkipScreenshot in creation then {eLayerSkipScreenshot} else {})
  }

  /** Whether the bit ROT_90 is set in an orientation word. */
  predicate HasRot90(transform: nat) { (transform / ROT_90) % 2 == 1 }

  class RequestedLayerState {
    const id: nat
    const layerId: int
    const layerCreationFlags: set<CreationFlag>
    const ownerUid: int
    const ownerPid: int
    const layerIdToMirror: int
    var canBeRoot: bool
    var parentId: int
    var relativeParentId: int
    var isRelativeOf: bool
    var handleAlive: bool
    var layerStackToMirror: int
    var flags: set<LayerFlag>
    var changes: set<Change>
    var what: set<StateBit>
    var premultipliedAlpha: bool
    var potentialCursor: bool
    var protectedByApp: bool
    /** Whether the colour is the invalid no-fill colour rather than black. */
    var noColorFill: bool
    var alpha: real
    var z: int
    var layerStack: int
    var crop: Rect
    var bufferCrop: Rect
    var bufferTransform: nat
    var transformToDisplayInverse: bool
    var externalTexture: Wrappers.Option<Texture>
    var bufferData: BufferData
    var barrierProducerId: int
    var barrierFrameNumber: nat
    var hasSidebandStream: bool
    var backgroundBlurRadius: int
    var blurRegionCount: nat
    var hasColorTransform: bool
    var touchCropId: int
    var gameMode: int

    /** A new layer as the creation arguments describe it. */
    constructor (args: LayerCreationArgs)
      ensures id == args.sequence && layerCreationFlags == args.flags
      ensures -0x8000_0000 <= layerId < 0x8000_0000 && layerId % UINT32_LIMIT == args.sequence % UINT32_LIMIT
      ensures parentId == args.parentId && layerIdToMirror == args.layerIdToMirror
      ensures canBeRoot <==> args.addToRoot && args.parentId == UNASSIGNED_LAYER_ID
      ensures handleAlive
      ensures changes == {Created, Metadata}
                + (if args.layerIdToMirror != UNASSIGNED_LAYER_ID || args.layerStackToMirror != INVALID_LAYER_STACK
                   then {Mirror} else {})
      ensures layerStackToMirror ==
                (if args.layerIdToMirror == UNASSIGNED_LAYER_ID && args.layerStackToMirror != INVALID_LAYER_STACK
                 then args.layerStackToMirror else INVALID_LAYER_STACK)
      ensures flags == CreationLayerFlags(args.flags)
      ensures premultipliedAlpha <==> eNonPremultiplied !in args.flags
      ensures potentialCursor <==> eCursorWindow in args.flags
      ensures protectedByApp <==> eProtectedByApp in args.flags
      ensures noColorFill <==> eNoColorFill in args.flags
      ensures alpha == 1.0 && z == 0 && layerStack == DEFAULT_LAYER_STACK
      ensures externalTexture.None? && bufferData.frameNumber == 0 && !hasSidebandStream
      ensures !isRelativeOf && relativeParentId == UNASSIGNED_LAYER_ID
      ensures crop.IsEmpty() && !crop.IsValid() && bufferTransform == 0 && !transformToDisplayInverse
      ensures bufferCrop == INVALID_RECT
      ensures !CanBeDestroyed() && !HasValidRelativeParent()
      ensures IsRoot() <==> args.addToRoot && args.parentId == UNASSIGNED_LAYER_ID
      ensures what == {}
    {
      id := args.sequence;
      layerCreationFlags := args.flags;
      ownerUid := args.ownerUid;
      ownerPid := args.ownerPid;
      layerIdToMirror := args.layerIdToMirror;
      layerId := Int32Of(args.sequence % UINT32_LIMIT);
      canBeRoot := args.addToRoot;
      parentId := args.parentId;
      relativeParentId := UNASSIGNED_LAYER_ID;
      isRelativeOf := false;
      what := {};
      changes := {Created};
      changes := changes + {Metadata};
      handleAlive := true;
      if args.parentId != UNASSIGNED_LAYER_ID {
        canBeRoot := false;
      }
      layerStackToMirror := INVALID_LAYER_STACK;
      if args.layerIdToMirror != UNASSIGNED_LAYER_ID {
        changes := changes + {Mirror};
      } else if args.layerStackToMirror != INVALID_LAYER_STACK {
        layerStackToMirror := args.layerStackToMirror;
        changes := changes + {Mirror};
      }
      flags := CreationLayerFlags(args.flags);
      premultipliedAlpha := eNonPremultiplied !in args.flags;
      potentialCursor := eCursorWindow in args.flags;
      protectedByApp := eProtectedByApp in args.flags;
      noColorFill := eNoColorFill in args.flags;
      alpha := 1.0;
      crop := INVALID_RECT;
      bufferCrop := INVALID_RECT;
      z := 0;
      layerStack := DEFAULT_LAYER_STACK;
      transformToDisplayInverse := false;
      bufferTransform := 0;
      externalTexture := Wrappers.None;
      bufferData := BufferData(0, 0, false);
      barrierProducerId := 0;
      barrierFrameNumber := 0;
      hasSidebandStream := false;
      backgroundBlurRadius := 0;
      blurRegionCount := 0;
      hasColorTransform := false;
      touchCropId := UNASSIGNED_LAYER_ID;
      gameMode := 0;
    }

    /** A layer can go once its handle is gone and it has no parent keeping it. */
    predicate CanBeDestroyed()
      reads this
    {
      !handleAlive && parentId == UNASSIGNED_LAYER_ID
    }

    predicate IsRoot()
      reads this
    {
      Hierarchy().IsRoot()
    }

    predicate HasValidRelativeParent()
      reads this
    {
      Hierarchy().HasValidRelativeParent()
    }

    /**
     * The buffer's size before the buffer transform and, when the layer follows the display's
     * inverse transform, before the display rotation: width and height are swapped once for each
     * of them that has ROT_90.
     */
    function GetBufferSize(displayRotationFlags: nat): (r: Rect)
      reads this
      requires externalTexture.Some? ==> externalTexture.value.Wellformed()
      ensures externalTexture.None? ==> r == INVALID_RECT
      ensures externalTexture.Some? ==>
                var t := externalTexture.value;
                var swapped := HasRot90(bufferTransform) != (transformToDisplayInverse && HasRot90(displayRotationFlags));
                r.left == 0 && r.top == 0
                && r.right % UINT32_LIMIT == (if swapped then t.height else t.width)
                && r.bottom % UINT32_LIMIT == (if swapped then t.width else t.height)
    {
      if externalTexture.None? then INVALID_RECT
      else
        var w := externalTexture.value.width;
        var h := externalTexture.value.height;
        var (w1, h1) := if HasRot90(bufferTransform) then (h, w) else (w, h);
        var (w2, h2) := if transformToDisplayInverse && HasRot90(displayRotationFlags) then (h1, w1) else (w1, h1);
        Rect(0, 0, Int32Of(w2), Int32Of(h2))
    }

    /** The buffer size limited by the crop: their overlap, or the crop alone when the size is invalid. */
    function GetCroppedBufferSize(bufferSize: Rect): (r: Rect)
      reads this
      ensures crop.IsEmpty() ==> r == bufferSize
      ensures !crop.IsEmpty() && !bufferSize.IsValid() ==> r == crop
      // with a set crop and a valid size, exactly the points in both
      ensures !crop.IsEmpty() && bufferSize.IsValid() ==> r == bufferSize.Intersect(crop)
      ensures !crop.IsEmpty() && bufferSize.IsValid() ==>
                forall x, y :: r.Contains(x, y) <==> bufferSize.Contains(x, y) && crop.Contains(x, y)
      // a set crop always bounds the result, and a valid size bounds it too
      ensures !crop.IsEmpty() ==>
                crop.left <= r.left && crop.top <= r.top && r.right <= crop.right && r.bottom <= crop.bottom
      ensures !crop.IsEmpty() && bufferSize.IsValid() ==>
                bufferSize.left <= r.left && bufferSize.top <= r.top
                && r.right <= bufferSize.right && r.bottom <= bufferSize.bottom
    {
      if !crop.IsEmpty() && bufferSize.IsValid() then bufferSize.Intersect(crop)
      else if !crop.IsEmpty() then crop
      else bufferSize
    }

    /** The part of the buffer shown: the buffer crop if set, else the whole buffer, else nothing. */
    function GetBufferCrop(): (r: Rect)
      reads this
      ensures !bufferCrop.IsEmpty() ==> r == bufferCrop
      ensures bufferCrop.IsEmpty() && externalTexture.Some? ==> r == externalTexture.value.Bounds()
      ensures bufferCrop.IsEmpty() && externalTexture.None? ==> r == INVALID_RECT
      ensures r.IsEmpty() <==>
                bufferCrop.IsEmpty()
                && (externalTexture.None? || externalTexture.value.width == 0 || externalTexture.value.height == 0)
    {
      if !bufferCrop.IsEmpty() then bufferCrop
      else if externalTexture.Some? then externalTexture.value.Bounds()
      else INVALID_RECT
    }

    /** How the layer asks to be composed. */
    function GetCompositionType(): (c: Composition)
      reads this
      ensures c == SIDEBAND <==> hasSidebandStream
      ensures c == SOLID_COLOR <==> !hasSidebandStream && externalTexture.None?
      ensures c == DISPLAY_DECORATION <==>
                !hasSidebandStream && externalTexture.Some? && eLayerIsDisplayDecoration in flags
      ensures c == CURSOR <==>
                !hasSidebandStream && externalTexture.Some? && eLayerIsDisplayDecoration !in flags && potentialCursor
    {
      if hasSidebandStream then SIDEBAND
      else if externalTexture.None? then SOLID_COLOR
      else if eLayerIsDisplayDecoration in flags then DISPLAY_DECORATION
      else if potentialCursor then CURSOR
      else DEVICE
    }

    /** Forgets the recorded state bits and changes. */
    method ClearChanges()
      modifies this`what, this`changes
      ensures what == {} && changes == {}
    {
      what := {};
      changes := {};
    }

    /** The fields a merge takes over from the transaction, as one value. */
    function Fields(): FieldState
      reads this
    {
      FieldState(what, flags, alpha, hasSidebandStream, backgroundBlurRadius, blurRegionCount, hasColorTransform,
                 touchCropId, gameMode)
    }

    /** The buffer and its barrier, as one value. */
    function Buffer(): BufferState
      reads this
    {
      BufferState(externalTexture, bufferData, barrierProducerId, barrierFrameNumber)
    }

    /** The parent and relative parent, as one value. */
    function Hierarchy(): HierarchyState
      reads this
    {
      HierarchyState(parentId, canBeRoot, isRelativeOf, relativeParentId)
    }

    /**
     * The buffer block of a merge, when the transaction sets a buffer: the new buffer is attached,
     * gets its frame number, is checked against the barrier (`outOfOrder` is the condition the
     * source logs) and advances the barrier.
     */
    method MergeBuffer(resolved: ResolvedComposerState) returns (outOfOrder: bool)
      modifies this`externalTexture, this`bufferData, this`barrierProducerId, this`barrierFrameNumber
      ensures Buffer() == BufferAfter(old(Buffer()), resolved)
      ensures outOfOrder == OutOfOrder(old(Buffer()), resolved)
    {
      outOfOrder := false;
      if eBufferChanged !in resolved.what {
        return;
      }
      var oldFrameNumber := if externalTexture.Some? then bufferData.frameNumber else 0;
      bufferData := resolved.merged.bufferData;
      externalTexture := resolved.externalTexture;
      if externalTexture.Some? {
        var frameNumber := if bufferData.frameNumberChanged then bufferData.frameNumber
                           else (oldFrameNumber + 1) % UINT64_LIMIT;
        bufferData := bufferData.(frameNumber := frameNumber);
        if barrierProducerId > bufferData.producerId
           || (barrierProducerId == bufferData.producerId && barrierFrameNumber > bufferData.frameNumber) {
          outOfOrder := true;
        }
        barrierProducerId := Max(bufferData.producerId, barrierProducerId);
        barrierFrameNumber := Max(bufferData.frameNumber, barrierFrameNumber);
      }
    }

    /**
     * The hierarchy block of a merge, step by step: a reparent, a new relative parent, dropping the
     * relative link, and noticing a reparent onto the relative parent. `recorded` is what it records.
     */
    method MergeHierarchy(resolved: ResolvedComposerState) returns (recorded: set<Change>)
      modifies this`parentId, this`canBeRoot, this`isRelativeOf, this`relativeParentId
      ensures Hierarchy() == HierarchyAfter(old(Hierarchy()), resolved)
      ensures recorded == HierarchyChanges(resolved, old(isRelativeOf), old(relativeParentId))
    {
      var clientWhat := resolved.what;
      recorded := {};
      if eReparent in clientWhat {
        recorded := recorded + {Parent};
        parentId := resolved.parentId;
        canBeRoot := false;
      }
      if eRelativeLayerChanged in clientWhat {
        recorded := recorded + {RelativeParent};
        relativeParentId := resolved.relativeParentId;
        isRelativeOf := true;
      }
      if (eLayerChanged in clientWhat || (eReparent in clientWhat && parentId == UNASSIGNED_LAYER_ID)) && isRelativeOf {
        relativeParentId := UNASSIGNED_LAYER_ID;
        isRelativeOf := false;
        recorded := recorded + {RelativeParent};
      }
      if eReparent in clientWhat && parentId == relativeParentId {
        recorded := recorded + {RelativeParent};
      }
    }

    /**
     * The plain fields of a merge: the state bits layer_state_t::merge adds, the merged flags,
     * alpha, sideband stream and blur, and what the transaction sets of the colour transform,
     * the touchable-region crop and the game mode.
     */
    method MergeFields(resolved: ResolvedComposerState)
      modifies this`what, this`flags, this`alpha, this`hasSidebandStream, this`backgroundBlurRadius
      modifies this`blurRegionCount, this`hasColorTransform, this`touchCropId, this`gameMode
      ensures Fields() == FieldsAfter(old(Fields()), resolved)
    {
      var clientWhat := resolved.what;
      var m := resolved.merged;
      what := what + resolved.diff;
      flags, alpha, hasSidebandStream := m.flags, m.alpha, m.hasSidebandStream;
      backgroundBlurRadius, blurRegionCount := m.backgroundBlurRadius, m.blurRegionCount;
      if eColorTransformChanged in clientWhat {
        hasColorTransform := !m.colorTransformIsIdentity;
      }
      if eInputInfoChanged in clientWhat {
        touchCropId := resolved.touchCropId;
      }
      if eMetadataChanged in clientWhat && resolved.metadataGameMode != -1 {
        gameMode := resolved.metadataGameMode;
      }
    }

    /**
     * Merges one client transaction into the layer, recording in `changes` what it changed,
     * judged against the state before the merge. `outOfOrder` reports the out-of-order-buffer
     * condition the source logs.
     */
    method Merge(resolved: ResolvedComposerState, masks: ChangeMasks) returns (outOfOrder: bool)
      modifies this`what, this`changes, this`flags, this`alpha, this`hasSidebandStream, this`backgroundBlurRadius
      modifies this`blurRegionCount, this`hasColorTransform, this`externalTexture, this`bufferData
      modifies this`barrierProducerId, this`barrierFrameNumber, this`parentId, this`canBeRoot, this`isRelativeOf
      modifies this`relativeParentId, this`touchCropId, this`gameMode
      ensures Fields() == FieldsAfter(old(Fields()), resolved)
      ensures Buffer() == BufferAfter(old(Buffer()), resolved)
      ensures outOfOrder == OutOfOrder(old(Buffer()), resolved)
      ensures Hierarchy() == HierarchyAfter(old(Hierarchy()), resolved)
      ensures changes == old(changes) + MergeChanges(resolved, masks, old(Fields()), old(externalTexture), old(Hierarchy()))
      // what the merge means for the layer's lifecycle and place in the hierarchy
      ensures IsRoot() ==> old(IsRoot())
      ensures CanBeDestroyed() <==>
                !handleAlive
                && (if eReparent in resolved.what then resolved.parentId else old(parentId)) == UNASSIGNED_LAYER_ID
      ensures eLayerChanged in resolved.what ==> !HasValidRelativeParent()
    {
      var fields, texture := Fields(), externalTexture;
      MergeFields(resolved);
      outOfOrder := MergeBuffer(resolved);
      var hierarchyChanges := MergeHierarchy(resolved);
      changes := changes + (StateChanges(resolved, masks, fields, texture) + hierarchyChanges);
    }
  }

  /**
   * The frame number a newly attached buffer gets: the client's number when it set one, otherwise
   * one more than the previous buffer's (uint64, wrapping), counting from 0 without a previous buffer.
   */
  function NextFrameNumber(oldTexture: Wrappers.Option<Texture>, oldData: BufferData, newData: BufferData): (n: nat)
    ensures newData.frameNumberChanged ==> n == newData.frameNumber
    ensures !newData.frameNumberChanged && oldTexture.None? ==> n == 1
    ensures !newData.frameNumberChanged && oldTexture.Some? && oldData.frameNumber + 1 < UINT64_LIMIT ==>
              n == oldData.frameNumber + 1
  {
    if newData.frameNumberChanged then newData.frameNumber
    else ((if oldTexture.Some? then oldData.frameNumber else 0) + 1) % UINT64_LIMIT
  }

  /** What a layer that starts or stops being shown with a buffer or stream has to redo. */
  const VISIBILITY_TOGGLE: set<Change> := {Geometry, VisibleRegion, Visibility, Input}

  /** The changes a flags update records: hiding or showing, and switching the destination frame. */
  function FlagsChanges(oldFlags: set<LayerFlag>, newFlags: set<LayerFlag>): set<Change>
  {
    (if (eLayerHidden in oldFlags) != (eLayerHidden in newFlags) then {Visibility, VisibleRegion} else {})
    + (if (eIgnoreDestinationFrame in oldFlags) != (eIgnoreDestinationFrame in newFlags) then {Geometry} else {})
  }

  /** The changes a buffer update records. */
  function BufferChanges(oldTexture: Wrappers.Option<Texture>, newTexture: Wrappers.Option<Texture>): set<Change>
  {
    var hasBuffer := newTexture.Some?;
    var hadBuffer := oldTexture.Some?;
    (if hasBuffer || hasBuffer != hadBuffer then
       {Buffer} + (if SizeOf(oldTexture) != SizeOf(newTexture) then {BufferSize, Geometry} else {})
     else {})
    + (if hasBuffer != hadBuffer then VISIBILITY_TOGGLE else {})
  }

  /** The changes a sideband-stream update records. */
  function SidebandChanges(hadSideStream: bool, hasSideStream: bool): set<Change>
  {
    {SidebandStream} + (if hasSideStream != hadSideStream then VISIBILITY_TOGGLE else {})
  }

  /** An alpha change matters for visibility only when it leaves or reaches zero. */
  function AlphaChanges(what: set<StateBit>, oldAlpha: real, newAlpha: real): set<Change>
  {
    if eAlphaChanged in what && (oldAlpha == 0.0 || newAlpha == 0.0) then {Visibility, VisibleRegion} else {}
  }

  /** A blur change matters for visibility only when the layer starts or stops blurring. */
  function BlurChanges(what: set<StateBit>, hadBlur: bool, hasBlur: bool): set<Change>
  {
    if (eBackgroundBlurRadiusChanged in what || eBlurRegionsChanged in what) && hadBlur != hasBlur
    then {Visibility, VisibleRegion} else {}
  }

  /** The change categories whose masks the accumulated state bits meet. */
  function CategoryChanges(clientChanges: set<StateBit>, masks: ChangeMasks): set<Change>
  {
    (if clientChanges * masks.hierarchy != {} then {Hierarchy} else {})
    + (if clientChanges * masks.content != {} then {Content} else {})
    + (if clientChanges * masks.geometry != {} then {Geometry} else {})
    + (if clientChanges * masks.affectsChildren != {} then {AffectsChildren} else {})
    + (if clientChanges * masks.input != {} then {Input} else {})
    + (if clientChanges * masks.visibleRegion != {} then {VisibleRegion} else {})
  }

  function ZChanges(clientWhat: set<StateBit>): set<Change>
  {
    if eLayerChanged in clientWhat || eRelativeLayerChanged in clientWhat || eLayerStackChanged in clientWhat
    then {Z} else {}
  }

  /**
   * Whether the relative-z link is dropped: on a layer change, or on a reparent to no parent,
   * while the layer is (or has just become) relative.
   */
  predicate RelativeCleared(resolved: ResolvedComposerState, wasRelative: bool)
  {
    (eLayerChanged in resolved.what || (eReparent in resolved.what && resolved.parentId == UNASSIGNED_LAYER_ID))
    && (eRelativeLayerChanged in resolved.what || wasRelative)
  }

  function RelativeAfter(resolved: ResolvedComposerState, wasRelative: bool): bool
  {
    (eRelativeLayerChanged in resolved.what || wasRelative) && !RelativeCleared(resolved, wasRelative)
  }

  function RelativeParentAfter(resolved: ResolvedComposerState, wasRelative: bool, oldRelativeParentId: int): int
  {
    if RelativeCleared(resolved, wasRelative) then UNASSIGNED_LAYER_ID
    else if eRelativeLayerChanged in resolved.what then resolved.relativeParentId
    else oldRelativeParentId
  }

  /**
   * The parent and relative-parent changes: a reparent; a new relative parent; a dropped
   * relative link; and a reparent onto the relative parent, which makes the layer a direct child.
   */
  function HierarchyChanges(resolved: ResolvedComposerState, wasRelative: bool, oldRelativeParentId: int): set<Change>
  {
    var reparent := eReparent in resolved.what;
    var directChild := reparent && resolved.parentId == RelativeParentAfter(resolved, wasRelative, oldRelativeParentId);
    (if reparent then {Parent} else {})
    + (if eRelativeLayerChanged in resolved.what || RelativeCleared(resolved, wasRelative) || directChild
       then {RelativeParent} else {})
  }

  /** Every kind of change a layer records. */
  const ALL_CHANGES: set<Change> :=
    {Created, Metadata, Mirror, Visibility, VisibleRegion, Geometry, Buffer, BufferSize, Input, SidebandStream,
     Hierarchy, Content, AffectsChildren, Z, Parent, RelativeParent, GameMode, FrameRate}

  /**
   * Whether a merge records `c` in any of the blocks other than the hierarchy one, from the
   * transaction and the layer's state before it.
   */
  predicate StateRecords(
    c: Change, resolved: ResolvedComposerState, masks: ChangeMasks, before: FieldState, texture: Wrappers.Option<Texture>)
  {
    var cw := resolved.what;
    var clientChanges := before.what + resolved.diff;
    var m := resolved.merged;
    (eFlagsChanged in cw && c in FlagsChanges(before.flags, m.flags))
    || (eBufferChanged in cw && c in BufferChanges(texture, resolved.externalTexture))
    || (eSidebandStreamChanged in cw && c in SidebandChanges(before.hasSidebandStream, m.hasSidebandStream))
    || c in AlphaChanges(clientChanges, before.alpha, m.alpha)
    || c in BlurChanges(clientChanges, before.HasBlur(), m.backgroundBlurRadius > 0 || m.blurRegionCount > 0)
    || c in CategoryChanges(clientChanges, masks)
    || c in ZChanges(cw)
    || (c == GameMode && eMetadataChanged in cw && resolved.metadataGameMode != -1
        && resolved.metadataGameMode != before.gameMode)
    || (c == FrameRate && eFrameRateChanged in cw)
  }

  /** The changes one merge records other than the parent and relative-parent ones. */
  function StateChanges(
    resolved: ResolvedComposerState, masks: ChangeMasks, before: FieldState, texture: Wrappers.Option<Texture>): set<Change>
  {
    set c | c in ALL_CHANGES && StateRecords(c, resolved, masks, before, texture)
  }

  /** The changes one merge records, from the transaction and the layer's state before it. */
  function MergeChanges(
    resolved: ResolvedComposerState, masks: ChangeMasks, before: FieldState, texture: Wrappers.Option<Texture>,
    hierarchy: HierarchyState): set<Change>
  {
    StateChanges(resolved, masks, before, texture)
    + HierarchyChanges(resolved, hierarchy.isRelativeOf, hierarchy.relativeParentId)
  }

  /** The plain fields after a merge. */
  function FieldsAfter(f: FieldState, resolved: ResolvedComposerState): FieldState
  {
    var cw := resolved.what;
    var m := resolved.merged;
    FieldState(
      f.what + resolved.diff, m.flags, m.alpha, m.hasSidebandStream, m.backgroundBlurRadius, m.blurRegionCount,
      if eColorTransformChanged in cw then !m.colorTransformIsIdentity else f.hasColorTransform,
      if eInputInfoChanged in cw then resolved.touchCropId else f.touchCropId,
      if eMetadataChanged in cw && resolved.metadataGameMode != -1 then resolved.metadataGameMode else f.gameMode)
  }

  /** Whether a merge attaches a buffer: the transaction sets one and it is not null. */
  predicate AttachesBuffer(resolved: ResolvedComposerState)
  {
    eBufferChanged in resolved.what && resolved.externalTexture.Some?
  }

  /** The bookkeeping an attached buffer ends up with: the client's, with the frame number resolved. */
  function AttachedBufferData(b: BufferState, resolved: ResolvedComposerState): BufferData
  {
    var d := resolved.merged.bufferData;
    d.(frameNumber := NextFrameNumber(b.texture, b.data, d))
  }

  /** An attached buffer that is older than the barrier: an earlier producer, or an earlier frame of it. */
  predicate OutOfOrder(b: BufferState, resolved: ResolvedComposerState)
  {
    AttachesBuffer(resolved)
    && var d := AttachedBufferData(b, resolved);
       b.barrierProducerId > d.producerId
       || (b.barrierProducerId == d.producerId && b.barrierFrameNumber > d.frameNumber)
  }

  /** The buffer state after a merge. */
  function BufferAfter(b: BufferState, resolved: ResolvedComposerState): BufferState
  {
    if eBufferChanged !in resolved.what then b
    else if resolved.externalTexture.None? then b.(texture := resolved.externalTexture, data := resolved.merged.bufferData)
    else
      var d := AttachedBufferData(b, resolved);
      BufferState(resolved.externalTexture, d, Max(d.producerId, b.barrierProducerId),
                  Max(d.frameNumber, b.barrierFrameNumber))
  }

  /** The hierarchy after a merge. */
  function HierarchyAfter(h: HierarchyState, resolved: ResolvedComposerState): HierarchyState
  {
    var reparent := eReparent in resolved.what;
    HierarchyState(
      if reparent then resolved.parentId else h.parentId,
      h.canBeRoot && !reparent,
      RelativeAfter(resolved, h.isRelativeOf),
      RelativeParentAfter(resolved, h.isRelativeOf, h.relativeParentId))
  }

  // ---------------------------------------------------------------------------------------------
  // What a merge guarantees

  /** The barrier covers the buffer the layer holds: neither its producer nor its frame is newer. */
  predicate BarrierCovers(b: BufferState)
  {
    b.texture.Some? ==> b.data.producerId <= b.barrierProducerId && b.data.frameNumber <= b.barrierFrameNumber
  }

  /**
   * A merge never moves the barrier back, and the barrier keeps covering the buffer held: it
   * covers every buffer a merge attaches.
   */
  lemma BarrierAdvances(b: BufferState, resolved: ResolvedComposerState)
    requires BarrierCovers(b)
    ensures var a := BufferAfter(b, resolved);
            b.barrierProducerId <= a.barrierProducerId && b.barrierFrameNumber <= a.barrierFrameNumber
            && BarrierCovers(a)
  {
  }

  /**
   * The next buffer of the producer that set the barrier, numbered implicitly, is in order: its
   * frame number is one more than the newest frame seen (short of the uint64 wrap).
   */
  lemma ImplicitNextFrameInOrder(b: BufferState, resolved: ResolvedComposerState)
    requires b.texture.Some? && b.barrierProducerId == b.data.producerId && b.barrierFrameNumber == b.data.frameNumber
    requires AttachesBuffer(resolved) && !resolved.merged.bufferData.frameNumberChanged
    requires resolved.merged.bufferData.producerId == b.data.producerId
    requires b.data.frameNumber + 1 < UINT64_LIMIT
    ensures !OutOfOrder(b, resolved)
    ensures BufferAfter(b, resolved).data.frameNumber == b.data.frameNumber + 1
    ensures BufferAfter(b, resolved).barrierFrameNumber == b.data.frameNumber + 1
  {
  }

  /** A buffer from an older producer, or an older frame of the newest producer, is reported. */
  lemma StaleBufferReported(b: BufferState, resolved: ResolvedComposerState)
    requires AttachesBuffer(resolved) && resolved.merged.bufferData.frameNumberChanged
    requires var d := resolved.merged.bufferData;
             d.producerId < b.barrierProducerId
             || (d.producerId == b.barrierProducerId && d.frameNumber < b.barrierFrameNumber)
    ensures OutOfOrder(b, resolved)
    ensures BufferAfter(b, resolved).barrierProducerId == b.barrierProducerId
  {
  }

  /** Dropping the buffer keeps the barrier and leaves nothing attached. */
  lemma DetachKeepsBarrier(b: BufferState, resolved: ResolvedComposerState)
    requires eBufferChanged in resolved.what && resolved.externalTexture.None?
    ensures var a := BufferAfter(b, resolved);
            a.texture.None? && a.barrierProducerId == b.barrierProducerId
            && a.barrierFrameNumber == b.barrierFrameNumber && !OutOfOrder(b, resolved)
  {
  }

  /** The relative link is either set, or cleared down to no relative parent. */
  predicate RelativeConsistent(h: HierarchyState)
  {
    !h.isRelativeOf ==> h.relativeParentId == UNASSIGNED_LAYER_ID
  }

  /**
   * A reparented layer can never again be placed at the root, and nothing else makes a layer
   * eligible for the root; the reparent is recorded as a Parent change.
   */
  lemma ReparentLeavesRoot(h: HierarchyState, resolved: ResolvedComposerState, masks: ChangeMasks,
                           f: FieldState, texture: Wrappers.Option<Texture>)
    ensures HierarchyAfter(h, resolved).canBeRoot ==> h.canBeRoot
    ensures eReparent in resolved.what ==>
              !HierarchyAfter(h, resolved).canBeRoot && HierarchyAfter(h, resolved).parentId == resolved.parentId
              && Parent in MergeChanges(resolved, masks, f, texture, h)
    ensures eReparent !in resolved.what ==> HierarchyAfter(h, resolved).parentId == h.parentId
    ensures eReparent in resolved.what ==> !HierarchyAfter(h, resolved).IsRoot()
  {
  }

  /**
   * After a merge the layer has a valid relative parent exactly when the link survives the
   * transaction (no layer change and no reparent onto no parent) and the relative parent, new
   * or kept, is not the layer's parent.
   */
  lemma RelativeParentValidity(h: HierarchyState, resolved: ResolvedComposerState)
    ensures var a := HierarchyAfter(h, resolved);
            var dropped := eLayerChanged in resolved.what
                           || (eReparent in resolved.what && resolved.parentId == UNASSIGNED_LAYER_ID);
            var relative := if eRelativeLayerChanged in resolved.what then resolved.relativeParentId
                            else h.relativeParentId;
            a.HasValidRelativeParent() <==>
              (eRelativeLayerChanged in resolved.what || h.isRelativeOf) && !dropped
              && (relative != a.parentId || relative == UNASSIGNED_LAYER_ID)
    ensures eLayerChanged in resolved.what ==> !HierarchyAfter(h, resolved).HasValidRelativeParent()
  {
  }

  /** An attached buffer numbered implicitly is one past the previous buffer's frame, or frame 1 without one. */
  lemma ImplicitFrameNumber(b: BufferState, resolved: ResolvedComposerState)
    requires AttachesBuffer(resolved) && !resolved.merged.bufferData.frameNumberChanged
    ensures var n := BufferAfter(b, resolved).data.frameNumber;
            (b.texture.None? ==> n == 1)
            && (b.texture.Some? && b.data.frameNumber + 1 < UINT64_LIMIT ==> n == b.data.frameNumber + 1)
            && (b.texture.Some? && b.data.frameNumber + 1 == UINT64_LIMIT ==> n == 0)
  {
  }

  /**
   * A merge keeps the relative link consistent, and any change to the relative link is recorded
   * as a RelativeParent change.
   */
  lemma RelativeLinkRecorded(h: HierarchyState, resolved: ResolvedComposerState, masks: ChangeMasks,
                             f: FieldState, texture: Wrappers.Option<Texture>)
    requires RelativeConsistent(h)
    ensures var a := HierarchyAfter(h, resolved);
            RelativeConsistent(a)
            && ((a.isRelativeOf, a.relativeParentId) != (h.isRelativeOf, h.relativeParentId)
                ==> RelativeParent in MergeChanges(resolved, masks, f, texture, h))
  {
  }

  /** A reparent onto the relative parent records a RelativeParent change: the layer is a direct child now. */
  lemma ReparentOntoRelativeRecorded(h: HierarchyState, resolved: ResolvedComposerState, masks: ChangeMasks,
                                     f: FieldState, texture: Wrappers.Option<Texture>)
    requires eReparent in resolved.what && resolved.parentId == HierarchyAfter(h, resolved).relativeParentId
    ensures RelativeParent in MergeChanges(resolved, masks, f, texture, h)
  {
  }

  /** Hiding or showing a layer through its flags records a visibility change. */
  lemma HiddenToggleRecorded(resolved: ResolvedComposerState, masks: ChangeMasks, f: FieldState,
                             texture: Wrappers.Option<Texture>, h: HierarchyState)
    requires eFlagsChanged in resolved.what
    requires (eLayerHidden in f.flags) != (eLayerHidden in resolved.merged.flags)
    ensures {Visibility, VisibleRegion} <= MergeChanges(resolved, masks, f, texture, h)
  {
    assert StateRecords(Visibility, resolved, masks, f, texture);
    assert StateRecords(VisibleRegion, resolved, masks, f, texture);
  }

  /**
   * Gaining or losing a buffer records a buffer change and everything a visibility toggle needs;
   * a new size records a buffer-size and geometry change.
   */
  lemma BufferToggleRecorded(resolved: ResolvedComposerState, masks: ChangeMasks, f: FieldState,
                             texture: Wrappers.Option<Texture>, h: HierarchyState)
    requires eBufferChanged in resolved.what
    ensures texture.Some? != resolved.externalTexture.Some? ==>
              VISIBILITY_TOGGLE + {Buffer} <= MergeChanges(resolved, masks, f, texture, h)
    ensures resolved.externalTexture.Some? && SizeOf(texture) != SizeOf(resolved.externalTexture) ==>
              {Buffer, BufferSize, Geometry} <= MergeChanges(resolved, masks, f, texture, h)
  {
    var changes := BufferChanges(texture, resolved.externalTexture);
    forall c | c in changes
      ensures c in MergeChanges(resolved, masks, f, texture, h)
    {
      assert StateRecords(c, resolved, masks, f, texture);
    }
  }

  /** A merge records nothing about creation or mirroring: those are recorded when the layer is made. */
  lemma MergeNeverRecordsCreation(resolved: ResolvedComposerState, masks: ChangeMasks, f: FieldState,
                                  texture: Wrappers.Option<Texture>, h: HierarchyState)
    ensures var c := MergeChanges(resolved, masks, f, texture, h);
            Created !in c && Metadata !in c && Mirror !in c
  {
    NoStateRecordOfCreation(Created, resolved, masks, f, texture);
    NoStateRecordOfCreation(Metadata, resolved, masks, f, texture);
    NoStateRecordOfCreation(Mirror, resolved, masks, f, texture);
  }

  lemma NoStateRecordOfCreation(c: Change, resolved: ResolvedComposerState, masks: ChangeMasks, f: FieldState,
                                texture: Wrappers.Option<Texture>)
    requires c == Created || c == Metadata || c == Mirror
    ensures c !in StateChanges(resolved, masks, f, texture)
  {
    assert c !in CategoryChanges(f.what + resolved.diff, masks);
  }

  /** A transaction that sets nothing, on a layer with no pending state bits, records nothing. */
  lemma EmptyTransactionRecordsNothing(resolved: ResolvedComposerState, masks: ChangeMasks, f: FieldState,
                                       b: BufferState, h: HierarchyState)
    requires resolved.what == {} && resolved.diff == {} && f.what == {}
    ensures MergeChanges(resolved, masks, f, b.texture, h) == {}
    ensures HierarchyAfter(h, resolved) == h && BufferAfter(b, resolved) == b && !OutOfOrder(b, resolved)
  {
    NothingToRecord(resolved, masks, f, b.texture);
  }

  lemma NothingToRecord(resolved: ResolvedComposerState, masks: ChangeMasks, f: FieldState,
                        texture: Wrappers.Option<Texture>)
    requires resolved.what == {} && resolved.diff == {} && f.what == {}
    ensures StateChanges(resolved, masks, f, texture) == {}
  {
    assert f.what + resolved.diff == {};
    assert CategoryChanges({}, masks) == {};
    forall c | c in ALL_CHANGES
      ensures !StateRecords(c, resolved, masks, f, texture)
    {
    }
  }
}
