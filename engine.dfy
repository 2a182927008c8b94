/**
 * The Surge engine as the adapter sees it: a black box with a parameter
 * table per patch, a patch catalogue with a display ordering, entry points
 * that the adapter calls (recorded in a trace), and a block renderer.
 */
module Engine {
  import opened CText

  /** The engine's native block: process() renders this many stereo frames. */
  const BLOCK_SIZE: nat := 32

  /** One slot of the patch's param_ptr table, as the registry reads it. */
  datatype ParamRecord = ParamRecord(
    present: bool,          // the slot holds a parameter (param_ptr[i] is not null)
    scene: int,             // scene number of the parameter
    storageName: CString,   // get_storage_name(), e.g. "a_osc1_pitch"
    fullName: CString,      // get_full_name(), e.g. "Osc 1 Pitch"
    valtype: int,           // 0 = int, 1 = bool, 2 = float
    idLookupOk: bool,       // fromSynthSideId(i, id) succeeds
    id: int)                // the identifier that lookup yields

  datatype Patch = Patch(name: CString, params: seq<ParamRecord>)

  /** One rendered stereo frame, already scaled to integer sample units. */
  datatype Frame = Frame(left: int, right: int)

  /** The engine entry points the adapter calls. */
  datatype EngineCall =
    | PlayNote(channel: int, note: int, velocity: int, detune: int)
    | ReleaseNote(channel: int, note: int, velocity: int)
    | ChannelController(channel: int, cc: int, value: int)
    | PitchBend(channel: int, value: int)
    | ChannelAftertouch(channel: int, value: int)
    | PolyAftertouch(channel: int, note: int, value: int)
    | ProgramChange(channel: int, program: int)
    | AllNotesOff
    | LoadPatch(raw: int)
    | SetParameter01(id: int, value01: real)
    | Process

  /** A catalogue whose display ordering only names patches it holds. */
  predicate OrderingValid(library: seq<Patch>, ordering: seq<int>) {
    forall k :: 0 <= k < |ordering| ==> 0 <= ordering[k] < |library|
  }

  class Synth {
    /** The raw patch catalogue. */
    const library: seq<Patch>
    /** patchOrdering: display index to raw catalogue index. */
    const patchOrdering: seq<int>
    /** What process() leaves in output[.][i] on its n-th call, after gain and scaling. */
    const signal: (int, int) -> Frame
    /** The text getParameter01(id) is printed as: "%.4f" when the flag is set,
     *  "%d" of the value rounded to the nearest integer otherwise. */
    const readout: (int, bool) -> CString

    var patch: Patch
    var calls: seq<EngineCall>
    var blocks: nat
    var output: seq<Frame>

    ghost predicate Valid()
      reads this
    {
      OrderingValid(library, patchOrdering) && |output| == BLOCK_SIZE
    }

    constructor (library: seq<Patch>, patchOrdering: seq<int>, signal: (int, int) -> Frame,
                 readout: (int, bool) -> CString, initial: Patch)
      requires OrderingValid(library, patchOrdering)
      ensures Valid()
      ensures this.library == library && this.patchOrdering == patchOrdering
      ensures this.signal == signal && this.readout == readout
      ensures patch == initial && calls == [] && blocks == 0
    {
      this.library := library;
      this.patchOrdering := patchOrdering;
      this.signal := signal;
      this.readout := readout;
      patch := initial;
      calls := [];
      blocks := 0;
      output := seq(BLOCK_SIZE, _ => Frame(0, 0));
    }

    /** loadPatch(raw): the engine installs the raw catalogue entry. */
    method LoadPatch(raw: int)
      requires Valid() && 0 <= raw < |library|
      modifies this`patch, this`calls
      ensures Valid()
      ensures patch == library[raw]
      ensures calls == old(calls) + [EngineCall.LoadPatch(raw)]
    {
      patch := library[raw];
      calls := calls + [EngineCall.LoadPatch(raw)];
    }

    /** Any entry point that only reaches the engine's own state. */
    method Call(c: EngineCall)
      modifies this`calls
      ensures calls == old(calls) + [c]
    {
      calls := calls + [c];
    }

    /** process(): render one native block into output. */
    method Process()
      requires Valid()
      modifies this`blocks, this`output, this`calls
      ensures Valid()
      ensures blocks == old(blocks) + 1
      ensures forall i :: 0 <= i < BLOCK_SIZE ==> output[i] == signal(old(blocks), i)
      ensures calls == old(calls) + [EngineCall.Process]
    {
      var n := blocks;
      var f := signal;
      output := seq(BLOCK_SIZE, i => f(n, i));
      blocks := blocks + 1;
      calls := calls + [EngineCall.Process];
    }
  }
}
