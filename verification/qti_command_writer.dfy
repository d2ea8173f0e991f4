/**
 * The QTI extension of the composer3 command writer: QTI display and layer commands are batched
 * per frame. At most one display command and one layer command are pending; addressing another
 * layer appends the pending layer command to the pending display command, and the pending
 * commands are flushed onto an append-only list that the HAL client collects.
 *
 * Every command is for the single display the writer was made for; a command addressed to any
 * other display is dropped. A pending layer command exists only while a display command is
 * pending, so flushing a layer command always has a display command to go to.
 */
module QtiCommandWriters {
  import opened Wrappers
  import opened Integers

  /** A buffer reference: its slot, its handle (a duplicate of the caller's) and its acquire fence. */
  datatype Buffer = Buffer(slot: int, handle: Option<nat>, fence: Option<int>)

  /** The composer3 client-target command: the client target buffer and its dataspace. */
  datatype ClientTarget = ClientTarget(buffer: Buffer, dataspace: int)

  /** A QTI layer command: the layer, and the layer type and flags a setter gave it, if any. */
  datatype LayerCommand = LayerCommand(layer: int, layerType: Option<nat>, layerFlags: Option<nat>)

  /** A QTI display command: the display, its elapse time, its client target and its layer commands. */
  datatype DisplayCommand = DisplayCommand(
    display: int, time: Option<int>, clientTarget: Option<ClientTarget>, layers: seq<LayerCommand>)

  /**
   * qtiGetBuffer: a buffer reference for `slot`, recording the handle when there is one and the
   * fence only when it is a valid descriptor (greater than zero).
   */
  function GetBuffer(slot: nat, handle: Option<nat>, fence: int): (b: Buffer)
    requires slot < UINT32_LIMIT
    ensures b.slot % UINT32_LIMIT == slot && INT32_MIN <= b.slot < -INT32_MIN
    ensures b.handle == handle
    ensures b.fence.Some? <==> fence > 0
    ensures b.fence.Some? ==> b.fence.value == fence
  {
    Buffer(Int32Of(slot), handle, if fence > 0 then Some(fence) else None)
  }

  /** The display command with the layer command, if any, appended to its layers. */
  function WithLayer(command: DisplayCommand, layer: Option<LayerCommand>): DisplayCommand
  {
    if layer.Some? then command.(layers := command.layers + [layer.value]) else command
  }

  /**
   * The commands a flush of everything pending yields: the flushed list, then the pending
   * display command holding the pending layer command.
   */
  function Flushed(commands: seq<DisplayCommand>, display: Option<DisplayCommand>, layer: Option<LayerCommand>)
    : (r: seq<DisplayCommand>)
    ensures |r| == |commands| + (if display.Some? then 1 else 0)
    ensures r[..|commands|] == commands
    ensures display.Some? ==>
              var d, f := display.value, r[|commands|];
              f.display == d.display && f.time == d.time && f.clientTarget == d.clientTarget
              && |d.layers| <= |f.layers| && f.layers[..|d.layers|] == d.layers
  {
    if display.Some? then commands + [WithLayer(display.value, layer)] else commands
  }

  /**
   * A flush loses no layer command: every layer command pending or already placed in a display
   * command appears in the flushed list, and the flushed list holds nothing else.
   */
  lemma FlushKeepsLayers(commands: seq<DisplayCommand>, display: Option<DisplayCommand>, layer: Option<LayerCommand>)
    requires layer.Some? ==> display.Some?
    ensures var r := Flushed(commands, display, layer);
            (layer.Some? ==> layer.value in r[|r| - 1].layers)
            && (display.Some? ==> forall l :: l in display.value.layers ==> l in r[|r| - 1].layers)
            && (display.Some? ==> |r[|r| - 1].layers| == |display.value.layers| + (if layer.Some? then 1 else 0))
  {
  }

  class QtiAidlCommandWriter {
    /** The one display every accepted command is for. */
    const display: int
    var displayCommand: Option<DisplayCommand>
    var layerCommand: Option<LayerCommand>
    var commands: seq<DisplayCommand>

    /**
     * A layer command is pending only under a pending display command, and every command,
     * pending or flushed, is for the writer's display.
     */
    ghost predicate Valid()
      reads this
    {
      (layerCommand.Some? ==> displayCommand.Some?)
      && (displayCommand.Some? ==> displayCommand.value.display == display)
      && forall i :: 0 <= i < |commands| ==> commands[i].display == display
    }

    /** What getPendingQtiCommands would return now. */
    function Pending(): seq<DisplayCommand>
      reads this
    {
      Flushed(commands, displayCommand, layerCommand)
    }

    /** A writer for `display` with nothing pending. */
    constructor (display: int)
      ensures Valid() && this.display == display
      ensures displayCommand.None? && layerCommand.None? && commands == []
    {
      this.display := display;
      new;
      Reset();
    }

    /** qtiReset: drops the pending commands and the flushed list. */
    method Reset()
      modifies this
      ensures Valid()
      ensures displayCommand.None? && layerCommand.None? && commands == []
    {
      displayCommand := None;
      layerCommand := None;
      commands := [];
    }

    /** Appends the pending layer command, if any, to the pending display command. */
    method FlushLayerCommand()
      requires Valid()
      modifies this
      ensures Valid() && layerCommand.None? && commands == old(commands)
      ensures displayCommand == (if old(displayCommand).Some? then Some(WithLayer(old(displayCommand).value, old(layerCommand)))
                                 else None)
      ensures Pending() == old(Pending())
    {
      if layerCommand.Some? {
        displayCommand := Some(displayCommand.value.(layers := displayCommand.value.layers + [layerCommand.value]));
        layerCommand := None;
      }
    }

    /** Appends the pending display command, if any, to the list. */
    method FlushDisplayCommand()
      requires Valid() && layerCommand.None?
      modifies this
      ensures Valid() && layerCommand.None? && displayCommand.None?
      ensures commands == Pending() == old(Pending())
    {
      if displayCommand.Some? {
        commands := commands + [displayCommand.value];
        displayCommand := None;
      }
    }

    /**
     * qtiGetDisplayCommand: makes sure a display command for `display` is pending and reports
     * whether the caller may edit it. A command for another display is refused and nothing
     * changes; otherwise a pending command is kept, or a fresh one is started.
     */
    method GetDisplayCommand(display: int) returns (ok: bool)
      requires Valid()
      modifies this
      ensures Valid()
      ensures ok <==> display == this.display
      ensures !ok ==> displayCommand == old(displayCommand) && layerCommand == old(layerCommand)
                      && commands == old(commands)
      ensures ok && old(displayCommand).Some? ==>
                displayCommand == old(displayCommand) && layerCommand == old(layerCommand) && commands == old(commands)
      ensures ok && old(displayCommand).None? ==>
                displayCommand == Some(DisplayCommand(display, None, None, [])) && layerCommand.None?
                && commands == old(commands)
    {
      if displayCommand.None? || displayCommand.value.display != display {
        if display != this.display {
          return false;
        }
        FlushLayerCommand();
        FlushDisplayCommand();
        displayCommand := Some(DisplayCommand(display, None, None, []));
      }
      return true;
    }

    /**
     * qtiGetLayerCommand: makes sure a layer command for `layer` is pending under a display
     * command for `display`. The same layer keeps its pending command; another layer's pending
     * command is first appended to the display command.
     */
    method GetLayerCommand(display: int, layer: int) returns (ok: bool)
      requires Valid()
      modifies this
      ensures Valid()
      ensures ok <==> display == this.display
      ensures !ok ==> displayCommand == old(displayCommand) && layerCommand == old(layerCommand)
                      && commands == old(commands)
      ensures ok ==> displayCommand.Some? && layerCommand.Some? && layerCommand.value.layer == layer
                     && commands == old(commands)
      ensures ok && old(layerCommand).Some? && old(layerCommand).value.layer == layer ==>
                displayCommand == old(displayCommand) && layerCommand == old(layerCommand)
      ensures ok && old(displayCommand).Some? && !(old(layerCommand).Some? && old(layerCommand).value.layer == layer) ==>
                displayCommand == Some(WithLayer(old(displayCommand).value, old(layerCommand)))
                && layerCommand == Some(LayerCommand(layer, None, None))
      ensures ok && old(displayCommand).None? ==>
                displayCommand == Some(DisplayCommand(display, None, None, []))
                && layerCommand == Some(LayerCommand(layer, None, None))
    {
      ok := GetDisplayCommand(display);
      if !ok {
        return;
      }
      if layerCommand.None? || layerCommand.value.layer != layer {
        FlushLayerCommand();
        layerCommand := Some(LayerCommand(layer, None, None));
      }
    }

    /**
     * qtiSetLayerType: sets the type on the pending command for `layer`. The type is kept as
     * given (the enum cast keeps the value). A command for another display changes nothing.
     */
    method SetLayerType(display: int, layer: int, layerType: nat)
      requires Valid()
      modifies this
      ensures Valid()
      ensures display != this.display ==>
                displayCommand == old(displayCommand) && layerCommand == old(layerCommand) && commands == old(commands)
      ensures display == this.display ==>
                layerCommand.Some? && layerCommand.value.layer == layer && layerCommand.value.layerType == Some(layerType)
                && commands == old(commands)
      ensures display == this.display && old(layerCommand).Some? && old(layerCommand).value.layer == layer ==>
                displayCommand == old(displayCommand)
                && layerCommand == Some(old(layerCommand).value.(layerType := Some(layerType)))
      ensures display == this.display && old(displayCommand).Some?
              && !(old(layerCommand).Some? && old(layerCommand).value.layer == layer) ==>
                displayCommand == Some(WithLayer(old(displayCommand).value, old(layerCommand)))
                && layerCommand == Some(LayerCommand(layer, Some(layerType), None))
      ensures display == this.display && old(displayCommand).None? ==>
                displayCommand == Some(DisplayCommand(display, None, None, []))
                && layerCommand == Some(LayerCommand(layer, Some(layerType), None))
    {
      var ok := GetLayerCommand(display, layer);
      if ok {
        layerCommand := Some(layerCommand.value.(layerType := Some(layerType)));
      }
    }

    /** qtiSetLayerFlag: sets the flags on the pending command for `layer`, like SetLayerType. */
    method SetLayerFlag(display: int, layer: int, flags: nat)
      requires Valid()
      modifies this
      ensures Valid()
      ensures display != this.display ==>
                displayCommand == old(displayCommand) && layerCommand == old(layerCommand) && commands == old(commands)
      ensures display == this.display ==>
                layerCommand.Some? && layerCommand.value.layer == layer && layerCommand.value.layerFlags == Some(flags)
                && commands == old(commands)
      ensures display == this.display && old(layerCommand).Some? && old(layerCommand).value.layer == layer ==>
                displayCommand == old(displayCommand)
                && layerCommand == Some(old(layerCommand).value.(layerFlags := Some(flags)))
      ensures display == this.display && old(displayCommand).Some?
              && !(old(layerCommand).Some? && old(layerCommand).value.layer == layer) ==>
                displayCommand == Some(WithLayer(old(displayCommand).value, old(layerCommand)))
                && layerCommand == Some(LayerCommand(layer, None, Some(flags)))
      ensures display == this.display && old(displayCommand).None? ==>
                displayCommand == Some(DisplayCommand(display, None, None, []))
                && layerCommand == Some(LayerCommand(layer, None, Some(flags)))
    {
      var ok := GetLayerCommand(display, layer);
      if ok {
        layerCommand := Some(layerCommand.value.(layerFlags := Some(flags)));
      }
    }

    /**
     * qtiSetDisplayElapseTime: sets the elapse time, a uint64 read as an int64, on the pending
     * display command; the pending layer command stays pending.
     */
    method SetDisplayElapseTime(display: int, time: nat)
      requires Valid() && time < UINT64_LIMIT
      modifies this
      ensures Valid()
      ensures display != this.display ==>
                displayCommand == old(displayCommand) && layerCommand == old(layerCommand) && commands == old(commands)
      ensures display == this.display ==>
                displayCommand.Some? && displayCommand.value.time == Some(Int64Of(time)) && commands == old(commands)
      ensures display == this.display && old(displayCommand).Some? ==>
                displayCommand == Some(old(displayCommand).value.(time := Some(Int64Of(time))))
                && layerCommand == old(layerCommand)
      ensures display == this.display && old(displayCommand).None? ==>
                displayCommand == Some(DisplayCommand(display, Some(Int64Of(time)), None, []))
                && layerCommand.None?
    {
      var ok := GetDisplayCommand(display);
      if ok {
        displayCommand := Some(displayCommand.value.(time := Some(Int64Of(time))));
      }
    }

    /**
     * qtiSetClientTarget_3_1: sets the client target (the buffer in `slot` with no handle, the
     * fence and the dataspace) on the pending display command.
     */
    method SetClientTarget(display: int, slot: nat, acquireFence: int, dataspace: nat)
      requires Valid() && slot < UINT32_LIMIT && dataspace < UINT32_LIMIT
      modifies this
      ensures Valid()
      ensures display != this.display ==>
                displayCommand == old(displayCommand) && layerCommand == old(layerCommand) && commands == old(commands)
      ensures display == this.display ==>
                displayCommand.Some?
                && displayCommand.value.clientTarget == Some(ClientTarget(GetBuffer(slot, None, acquireFence), Int32Of(dataspace)))
                && commands == old(commands)
      ensures display == this.display && old(displayCommand).Some? ==>
                displayCommand == Some(old(displayCommand).value.(clientTarget :=
                                         Some(ClientTarget(GetBuffer(slot, None, acquireFence), Int32Of(dataspace)))))
                && layerCommand == old(layerCommand)
      ensures display == this.display && old(displayCommand).None? ==>
                displayCommand == Some(DisplayCommand(display, None,
                                         Some(ClientTarget(GetBuffer(slot, None, acquireFence), Int32Of(dataspace))), []))
                && layerCommand.None?
    {
      var ok := GetDisplayCommand(display);
      var target := ClientTarget(GetBuffer(slot, None, acquireFence), Int32Of(dataspace));
      if ok {
        displayCommand := Some(displayCommand.value.(clientTarget := Some(target)));
      }
    }

    /**
     * getPendingQtiCommands: flushes the layer command, then the display command, and returns
     * the list; nothing is pending afterwards. The list is not cleared.
     */
    method GetPendingQtiCommands() returns (r: seq<DisplayCommand>)
      requires Valid()
      modifies this
      ensures Valid() && displayCommand.None? && layerCommand.None?
      ensures r == commands == old(Pending())
      ensures forall i :: 0 <= i < |r| ==> r[i].display == display
    {
      FlushLayerCommand();
      FlushDisplayCommand();
      r := commands;
    }
  }
}
