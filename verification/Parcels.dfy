// The binder requests of the VDSP service: what the proxy writes, onTransact reads back.
module Parcels {
  import opened Bags

  const WORDS := 0x1_0000_0000

  type Word = w: int | 0 <= w < WORDS

  // A C conversion to uint32_t, and the int32_t with the same bits.
  function ToWord(x: int): Word {
    x % WORDS
  }

  function Signed(w: Word): int {
    if w < WORDS / 2 then w else w - WORDS
  }

  lemma SignedRoundTrip(w: Word)
    ensures ToWord(Signed(w)) == w && -WORDS / 2 <= Signed(w) < WORDS / 2 && (Signed(w) - w) % WORDS == 0
  {
  }

  // struct VdspInputOutput. None marks a field that is not conveyed and holds nothing definite.
  datatype InOut = InOut(fd: nat, size: Word, phyAddr: Option<Word>, flag: Option<Word>, virAddr: Option<nat>)

  datatype Call =
    | Open(kind: Word)
    | Close
    | Send(nsid: string, input: Option<InOut>, output: Option<InOut>, buffer: Option<seq<InOut>>, priority: Word)
    | Load(name: string, library: InOut)
    | Unload(name: string)
    | Hint(level: Word, acquire: Word)

  // A caller fills in the fields, and says how many buffers there are in a uint32_t.
  predicate WellFormed(call: Call) {
    match call
    case Send(_, input, output, buffer, _) =>
      && (input.Some? ==> input.value.phyAddr.Some?)
      && (buffer.Some? ==> |buffer.value| < WORDS && Filled(buffer.value))
    case _ => true
  }

  predicate Filled(bs: seq<InOut>) {
    forall i :: 0 <= i < |bs| ==> bs[i].phyAddr.Some? && bs[i].flag.Some?
  }

  function Action(call: Call): nat {
    match call
    case Open(_) => 0
    case Close => 1
    case Send(_, _, _, _, _) => 2
    case Load(_, _) => 3
    case Unload(_) => 4
    case Hint(_, _) => 5
  }

  // What arrives of a call: everything except the fields the wire drops. An empty list of buffers arrives
  // as none at all.
  function Received(call: Call): Call {
    match call
    case Send(nsid, input, output, buffer, priority) =>
      Send(nsid,
           if input.Some? then Some(input.value.(flag := None, virAddr := None)) else None,
           if output.Some? then Some(output.value.(phyAddr := None, flag := None, virAddr := None)) else None,
           if buffer.Some? && buffer.value != [] then Some(WithoutAddresses(buffer.value)) else None,
           priority)
    case Load(name, library) => Load(name, library.(phyAddr := None, flag := None, virAddr := None))
    case _ => call
  }

  function WithoutAddresses(bs: seq<InOut>): (r: seq<InOut>)
    ensures |r| == |bs| && forall i :: 0 <= i < |bs| ==> r[i] == bs[i].(virAddr := None)
  {
    if bs == [] then [] else [bs[0].(virAddr := None)] + WithoutAddresses(bs[1..])
  }

  // ---- the parcel ----

  // The items of a parcel. A descriptor stands for the open file it refers to.
  datatype Item = Token(ours: bool) | Binder(client: nat) | Text(text: string) | File(fd: nat) | Number(w: Word)

  class Parcel {
    var items: seq<Item>
    var pos: nat

    constructor ()
      ensures items == [] && pos == 0
    {
      items, pos := [], 0;
    }

    ghost predicate Valid()
      reads this
    {
      pos <= |items|
    }

    // What is still to be read.
    ghost function Rest(): seq<Item>
      requires Valid()
      reads this
    {
      items[pos..]
    }

    method Write(item: Item)
      requires Valid()
      modifies this`items
      ensures Valid() && items == old(items) + [item]
    {
      items := items + [item];
    }

    method WriteInt32(x: int)
      requires Valid()
      modifies this`items
      ensures Valid() && items == old(items) + [Number(ToWord(x))]
    {
      items := items + [Number(ToWord(x))];
    }

    method ReadToken() returns (ours: bool)
      requires Valid()
      modifies this`pos
      ensures Valid()
      ensures old(Rest()) != [] && old(Rest())[0].Token? ==> ours == old(Rest())[0].ours && Rest() == old(Rest())[1..]
      ensures old(Rest()) == [] || !old(Rest())[0].Token? ==> !ours
    {
      ours := false;
      if pos < |items| && items[pos].Token? {
        ours, pos := items[pos].ours, pos + 1;
      }
    }

    method ReadBinder() returns (client: nat)
      requires Valid()
      modifies this`pos
      ensures Valid()
      ensures old(Rest()) != [] && old(Rest())[0].Binder? ==>
                client == old(Rest())[0].client && Rest() == old(Rest())[1..]
    {
      client := 0;
      if pos < |items| && items[pos].Binder? {
        client, pos := items[pos].client, pos + 1;
      }
    }

    method ReadCString() returns (text: string)
      requires Valid()
      modifies this`pos
      ensures Valid()
      ensures old(Rest()) != [] && old(Rest())[0].Text? ==> text == old(Rest())[0].text && Rest() == old(Rest())[1..]
    {
      text := "";
      if pos < |items| && items[pos].Text? {
        text, pos := items[pos].text, pos + 1;
      }
    }

    method ReadFileDescriptor() returns (fd: nat)
      requires Valid()
      modifies this`pos
      ensures Valid()
      ensures old(Rest()) != [] && old(Rest())[0].File? ==> fd == old(Rest())[0].fd && Rest() == old(Rest())[1..]
    {
      fd := 0;
      if pos < |items| && items[pos].File? {
        fd, pos := items[pos].fd, pos + 1;
      }
    }

    method ReadUint32() returns (w: Word)
      requires Valid()
      modifies this`pos
      ensures Valid()
      ensures old(Rest()) != [] && old(Rest())[0].Number? ==> w == old(Rest())[0].w && Rest() == old(Rest())[1..]
    {
      w := 0;
      if pos < |items| && items[pos].Number? {
        w, pos := items[pos].w, pos + 1;
      }
    }

    method ReadInt32() returns (x: int)
      requires Valid()
      modifies this`pos
      ensures Valid()
      ensures old(Rest()) != [] && old(Rest())[0].Number? ==>
                x == Signed(old(Rest())[0].w) && Rest() == old(Rest())[1..]
    {
      var w := ReadUint32();
      x := Signed(w);
    }
  }

  // ---- the wire format ----

  ghost function Flagged(present: bool): Item {
    Number(if present then 1 else 0)
  }

  ghost function InputItems(input: Option<InOut>): seq<Item>
    requires input.Some? ==> input.value.phyAddr.Some?
  {
    if input.None? then [Flagged(false)]
    else [Flagged(true), File(input.value.fd), Number(input.value.phyAddr.value), Number(input.value.size)]
  }

  ghost function OutputItems(output: Option<InOut>): seq<Item> {
    if output.None? then [Flagged(false)] else [Flagged(true), File(output.value.fd), Number(output.value.size)]
  }

  ghost function OneBuffer(b: InOut): seq<Item>
    requires b.phyAddr.Some? && b.flag.Some?
  {
    [File(b.fd), Number(b.size), Number(b.phyAddr.value), Number(b.flag.value)]
  }

  ghost function Buffers(bs: seq<InOut>): seq<Item>
    requires Filled(bs)
  {
    if bs == [] then [] else OneBuffer(bs[0]) + Buffers(bs[1..])
  }

  ghost function BufferItems(buffer: Option<seq<InOut>>): seq<Item>
    requires buffer.Some? ==> |buffer.value| < WORDS && Filled(buffer.value)
  {
    if buffer.None? then [Flagged(false)] else [Flagged(true), Number(|buffer.value|)] + Buffers(buffer.value)
  }

  ghost function SendItems(call: Call): seq<Item>
    requires call.Send? && WellFormed(call)
  {
    [Text(call.nsid)] + (InputItems(call.input) + (OutputItems(call.output) + (BufferItems(call.buffer) + [Number(call.priority)])))
  }

  ghost function Encoded(client: nat, call: Call): seq<Item>
    requires WellFormed(call)
  {
    [Token(true), Binder(client)] +
    match call
    case Open(kind) => [Number(kind)]
    case Close => []
    case Send(_, _, _, _, _) => SendItems(call)
    case Load(name, library) => [Text(name), File(library.fd), Number(library.size)]
    case Unload(name) => [Text(name)]
    case Hint(level, acquire) => [Number(level), Number(acquire)]
  }

  lemma {:induction false} BuffersSnoc(bs: seq<InOut>, b: InOut)
    requires Filled(bs)
    requires b.phyAddr.Some? && b.flag.Some?
    ensures Buffers(bs + [b]) == Buffers(bs) + OneBuffer(b)
  {
    if bs == [] {
      assert [b][1..] == [];
    } else {
      BuffersSnoc(bs[1..], b);
      assert (bs + [b])[1..] == bs[1..] + [b];
    }
  }

  // Equal lists of buffers, up to the addresses, are all that fits the same items.
  lemma {:induction false} BuffersDetermine(a: seq<InOut>, b: seq<InOut>, x: seq<Item>, y: seq<Item>)
    requires |a| == |b| && Filled(a) && Filled(b) && Buffers(a) + x == Buffers(b) + y
    ensures WithoutAddresses(a) == WithoutAddresses(b) && x == y
  {
    if a == [] {
      assert a == b && Buffers(a) + x == x && Buffers(b) + y == y;
    } else {
      BuffersFirst(a, 0, x);
      BuffersFirst(b, 0, y);
      assert a[0..] == a && b[0..] == b;
      Split(OneBuffer(a[0]), Buffers(a[1..]) + x, OneBuffer(b[0]), Buffers(b[1..]) + y);
      OneBufferDetermines(a[0], b[0]);
      BuffersDetermine(a[1..], b[1..], x, y);
    }
  }

  lemma OneBufferDetermines(a: InOut, b: InOut)
    requires a.phyAddr.Some? && a.flag.Some? && b.phyAddr.Some? && b.flag.Some? && OneBuffer(a) == OneBuffer(b)
    ensures a.(virAddr := None) == b.(virAddr := None)
  {
    assert forall i :: 0 <= i < 4 ==> OneBuffer(a)[i] == OneBuffer(b)[i];
    assert OneBuffer(a)[0] == File(a.fd) && OneBuffer(a)[1] == Number(a.size);
    assert OneBuffer(a)[2] == Number(a.phyAddr.value) && OneBuffer(a)[3] == Number(a.flag.value);
  }

  lemma Split(a: seq<Item>, x: seq<Item>, b: seq<Item>, y: seq<Item>)
    requires |a| == |b| && a + x == b + y
    ensures a == b && x == y
  {
    assert a == (a + x)[..|a|] && b == (b + y)[..|b|];
    assert x == (a + x)[|a|..] && y == (b + y)[|b|..];
  }

  lemma InputDetermines(a: Call, b: Call, x: seq<Item>, y: seq<Item>)
    requires a.Send? && b.Send? && WellFormed(a) && WellFormed(b)
    requires InputItems(a.input) + x == InputItems(b.input) + y
    ensures Received(a).input == Received(b).input && x == y
  {
    assert (InputItems(a.input) + x)[0] == (InputItems(b.input) + y)[0];
    Split(InputItems(a.input), x, InputItems(b.input), y);
    if a.input.Some? {
      assert InputItems(a.input)[1] == File(a.input.value.fd) && InputItems(b.input)[1] == File(b.input.value.fd);
      assert InputItems(a.input)[2] == Number(a.input.value.phyAddr.value);
      assert InputItems(b.input)[2] == Number(b.input.value.phyAddr.value);
      assert InputItems(a.input)[3] == Number(a.input.value.size) && InputItems(b.input)[3] == Number(b.input.value.size);
    }
  }

  lemma OutputDetermines(a: Call, b: Call, x: seq<Item>, y: seq<Item>)
    requires a.Send? && b.Send? && OutputItems(a.output) + x == OutputItems(b.output) + y
    ensures Received(a).output == Received(b).output && x == y
  {
    assert (OutputItems(a.output) + x)[0] == (OutputItems(b.output) + y)[0];
    Split(OutputItems(a.output), x, OutputItems(b.output), y);
    if a.output.Some? {
      assert OutputItems(a.output)[1] == File(a.output.value.fd) && OutputItems(b.output)[1] == File(b.output.value.fd);
      assert OutputItems(a.output)[2] == Number(a.output.value.size);
      assert OutputItems(b.output)[2] == Number(b.output.value.size);
    }
  }

  lemma BufferListDetermines(a: Call, b: Call, x: seq<Item>, y: seq<Item>)
    requires a.Send? && b.Send? && WellFormed(a) && WellFormed(b)
    requires BufferItems(a.buffer) + x == BufferItems(b.buffer) + y
    ensures Received(a).buffer == Received(b).buffer && x == y
  {
    hide Buffers;
    var p, q := BufferItems(a.buffer) + x, BufferItems(b.buffer) + y;
    assert p[0] == q[0];
    if a.buffer.Some? {
      assert p[1] == Number(|a.buffer.value|) && q[1] == Number(|b.buffer.value|);
      assert p[2..] == Buffers(a.buffer.value) + x && q[2..] == Buffers(b.buffer.value) + y;
      BuffersDetermine(a.buffer.value, b.buffer.value, x, y);
    } else {
      assert p[1..] == x && q[1..] == y;
    }
  }

  // The wire format is unambiguous: two sends that make the same items are the same up to the dropped fields.
  lemma SendDetermines(a: Call, b: Call)
    requires a.Send? && b.Send? && WellFormed(a) && WellFormed(b) && SendItems(a) == SendItems(b)
    ensures Received(a) == Received(b)
  {
    hide InputItems, OutputItems, BufferItems;
    var a2, b2 := BufferItems(a.buffer) + [Number(a.priority)], BufferItems(b.buffer) + [Number(b.priority)];
    var a1, b1 := OutputItems(a.output) + a2, OutputItems(b.output) + b2;
    assert SendItems(a)[0] == Text(a.nsid) && SendItems(b)[0] == Text(b.nsid);
    assert SendItems(a)[1..] == InputItems(a.input) + a1 && SendItems(b)[1..] == InputItems(b.input) + b1;
    InputDetermines(a, b, a1, b1);
    OutputDetermines(a, b, a2, b2);
    BufferListDetermines(a, b, [Number(a.priority)], [Number(b.priority)]);
    assert [Number(a.priority)][0] == [Number(b.priority)][0];
  }

  // ---- the proxy ----

  // The methods of BpVdspService up to their transact.
  method Encode(client: nat, call: Call) returns (p: Parcel)
    requires WellFormed(call)
    ensures fresh(p) && p.Valid() && p.pos == 0 && p.items == Encoded(client, call)
  {
    p := new Parcel();
    p.Write(Token(true));
    p.Write(Binder(client));
    match call {
      case Open(kind) =>
        SignedRoundTrip(kind);
        p.WriteInt32(Signed(kind));
      case Close =>
      case Send(_, _, _, _, _) => EncodeSend(p, call);
      case Load(name, library) =>
        SignedRoundTrip(library.size);
        p.Write(Text(name));
        p.Write(File(library.fd));
        p.WriteInt32(Signed(library.size));
      case Unload(name) => p.Write(Text(name));
      case Hint(level, acquire) =>
        SignedRoundTrip(level);
        SignedRoundTrip(acquire);
        p.WriteInt32(Signed(level));
        p.WriteInt32(Signed(acquire));
    }
  }

  method EncodeSend(p: Parcel, call: Call)
    requires p.Valid() && call.Send? && WellFormed(call)
    modifies p`items
    ensures p.Valid() && p.items == old(p.items) + SendItems(call)
  {
    hide InputItems, OutputItems, BufferItems;
    p.Write(Text(call.nsid));
    EncodeInput(p, call.input);
    EncodeOutput(p, call.output);
    EncodeBuffers(p, call.buffer);
    p.Write(Number(call.priority));
    assert p.items == old(p.items) + SendItems(call);
  }

  method EncodeInput(p: Parcel, input: Option<InOut>)
    requires p.Valid() && (input.Some? ==> input.value.phyAddr.Some?)
    modifies p`items
    ensures p.Valid() && p.items == old(p.items) + InputItems(input)
  {
    p.WriteInt32(if input.Some? then 1 else 0);
    if input.Some? {
      p.Write(File(input.value.fd));
      p.Write(Number(input.value.phyAddr.value));
      p.Write(Number(input.value.size));
    }
  }

  method EncodeOutput(p: Parcel, output: Option<InOut>)
    requires p.Valid()
    modifies p`items
    ensures p.Valid() && p.items == old(p.items) + OutputItems(output)
  {
    p.WriteInt32(if output.Some? then 1 else 0);
    if output.Some? {
      p.Write(File(output.value.fd));
      p.Write(Number(output.value.size));
    }
  }

  method EncodeBuffers(p: Parcel, buffer: Option<seq<InOut>>)
    requires p.Valid() && (buffer.Some? ==> |buffer.value| < WORDS && Filled(buffer.value))
    modifies p`items
    ensures p.Valid() && p.items == old(p.items) + BufferItems(buffer)
  {
    p.WriteInt32(if buffer.Some? then 1 else 0);
    if buffer.Some? {
      var bs := buffer.value;
      p.Write(Number(|bs|));
      ghost var start := p.items;
      assert bs[..0] == [];
      for i := 0 to |bs|
        invariant p.Valid() && p.items == start + Buffers(bs[..i])
      {
        var b := bs[i];
        SignedRoundTrip(b.flag.value);
        p.Write(File(b.fd));
        p.Write(Number(b.size));
        p.Write(Number(b.phyAddr.value));
        p.WriteInt32(Signed(b.flag.value));
        BuffersSnoc(bs[..i], b);
        assert bs[..i + 1] == bs[..i] + [b];
        assert p.items == start + Buffers(bs[..i]) + OneBuffer(b);
      }
      assert bs[..|bs|] == bs;
    }
  }

  // ---- the service ----

  datatype Decoded = Ok(client: nat, call: Call) | PermissionDenied | NoMemory | UnknownTransaction

  // The service has a list of buffers to allocate.
  predicate Lists(call: Call) {
    call.Send? && call.buffer.Some? && call.buffer.value != []
  }

  // onTransact up to the call it makes. memory says whether malloc succeeds. On a parcel the proxy made for
  // sent, everything the wire carries arrives, and the whole parcel is consumed; unless there is no memory for its
  // list of buffers.
  method OnTransact(p: Parcel, action: nat, memory: bool, ghost client: nat, ghost sent: Call) returns (r: Decoded)
    requires p.Valid() && WellFormed(sent)
    modifies p`pos
    ensures p.Valid()
    ensures p.items == Encoded(client, sent) && old(p.pos) == 0 && action == Action(sent) ==>
              if Lists(sent) && !memory then r == NoMemory else r == Ok(client, Received(sent)) && p.pos == |p.items|
    ensures old(p.Rest()) == [] || old(p.Rest())[0] != Token(true) ==> r == UnknownTransaction || r == PermissionDenied
    ensures r == NoMemory ==> !memory
  {
    if action > 5 {
      return UnknownTransaction;
    }
    ghost var good := p.items == Encoded(client, sent) && p.pos == 0 && action == Action(sent);
    ghost var all := p.Rest();
    var ours := p.ReadToken();
    if !ours {
      return PermissionDenied;
    }
    var c := p.ReadBinder();
    assert good ==> all == Encoded(client, sent) && c == client && p.Rest() == all[2..];
    if action == 0 {
      var kind := p.ReadInt32();
      r := Ok(c, Open(ToWord(kind)));
      if good { SignedRoundTrip(sent.kind); }
    } else if action == 1 {
      r := Ok(c, Close);
    } else if action == 2 {
      var ok, call := DecodeSend(p, memory, sent);
      r := if ok then Ok(c, call) else NoMemory;
    } else if action == 3 {
      var name := p.ReadCString();
      var fd := p.ReadFileDescriptor();
      var size := p.ReadInt32();
      r := Ok(c, Load(name, InOut(fd, ToWord(size), None, None, None)));
      if good { SignedRoundTrip(sent.library.size); }
    } else if action == 4 {
      var name := p.ReadCString();
      r := Ok(c, Unload(name));
    } else {
      var level := p.ReadInt32();
      var acquire := p.ReadInt32();
      r := Ok(c, Hint(ToWord(level), ToWord(acquire)));
      if good { SignedRoundTrip(sent.level); SignedRoundTrip(sent.acquire); }
    }
  }

  // A call through the proxy, from the caller's arguments to those of the service's method: every field that is on
  // the wire arrives in its place.
  method Transact(client: nat, sent: Call, memory: bool) returns (r: Decoded)
    requires WellFormed(sent)
    ensures r == NoMemory <==> sent.Send? && sent.buffer.Some? && |sent.buffer.value| > 0 && !memory
    ensures r != NoMemory ==> r.Ok? && r.client == client
    ensures r.Ok? && !sent.Send? && !sent.Load? ==> r.call == sent
    ensures r.Ok? && sent.Load? ==>
              r.call.Load? && r.call.name == sent.name
              && r.call.library.fd == sent.library.fd && r.call.library.size == sent.library.size
    ensures r.Ok? && sent.Send? ==> r.call.Send? && r.call.nsid == sent.nsid && r.call.priority == sent.priority
    ensures r.Ok? && sent.Send? ==>
              (r.call.input.Some? <==> sent.input.Some?) && (r.call.output.Some? <==> sent.output.Some?)
    ensures r.Ok? && sent.Send? && sent.input.Some? ==>
              var i, j := r.call.input.value, sent.input.value;
              i.fd == j.fd && i.size == j.size && i.phyAddr == j.phyAddr
    ensures r.Ok? && sent.Send? && sent.output.Some? ==>
              r.call.output.value.fd == sent.output.value.fd && r.call.output.value.size == sent.output.value.size
    ensures r.Ok? && sent.Send? ==> (r.call.buffer.Some? <==> sent.buffer.Some? && |sent.buffer.value| > 0)
    ensures r.Ok? && sent.Send? && r.call.buffer.Some? ==>
              var bs, cs := r.call.buffer.value, sent.buffer.value;
              |bs| == |cs| && forall i :: 0 <= i < |cs| ==>
                bs[i].fd == cs[i].fd && bs[i].size == cs[i].size && bs[i].phyAddr == cs[i].phyAddr && bs[i].flag == cs[i].flag
  {
    var p := Encode(client, sent);
    r := OnTransact(p, Action(sent), memory, client, sent);
  }

  method DecodeSend(p: Parcel, memory: bool, ghost sent: Call) returns (ok: bool, call: Call)
    requires p.Valid() && WellFormed(sent)
    modifies p`pos
    ensures p.Valid() && (!ok ==> !memory)
    ensures sent.Send? && old(p.Rest()) == SendItems(sent) ==>
              && (ok <==> memory || !Lists(sent)) && (ok ==> call == Received(sent) && p.Rest() == [])
  {
    ghost var good := sent.Send? && p.Rest() == SendItems(sent);
    ghost var afterBuffers: seq<Item> := if sent.Send? then [Number(sent.priority)] else [];
    ghost var afterOutput := if sent.Send? then BufferItems(sent.buffer) + afterBuffers else [];
    ghost var afterInput := if sent.Send? then OutputItems(sent.output) + afterOutput else [];
    var nsid := p.ReadCString();
    assert good ==> p.Rest() == InputItems(sent.input) + afterInput;
    var input := ReadInput(p, if sent.Send? then sent.input else None, afterInput);
    var output := ReadOutput(p, if sent.Send? then sent.output else None, afterOutput);
    var buffer;
    ok, buffer := ReadBuffers(p, memory, if sent.Send? then sent.buffer else None, afterBuffers);
    if !ok {
      return false, Close;
    }
    var priority := p.ReadUint32();
    call := Send(nsid, input, output, buffer, priority);
  }

  method ReadInput(p: Parcel, ghost sent: Option<InOut>, ghost rest: seq<Item>) returns (input: Option<InOut>)
    requires p.Valid() && (sent.Some? ==> sent.value.phyAddr.Some?)
    modifies p`pos
    ensures p.Valid()
    ensures old(p.Rest()) == InputItems(sent) + rest ==>
              p.Rest() == rest && input == (if sent.Some? then Some(sent.value.(flag := None, virAddr := None)) else None)
  {
    var valid := p.ReadInt32();
    input := None;
    if valid != 0 {
      var fd := p.ReadFileDescriptor();
      var phyAddr := p.ReadUint32();
      var size := p.ReadUint32();
      input := Some(InOut(fd, size, Some(phyAddr), None, None));
    }
  }

  method ReadOutput(p: Parcel, ghost sent: Option<InOut>, ghost rest: seq<Item>) returns (output: Option<InOut>)
    requires p.Valid()
    modifies p`pos
    ensures p.Valid()
    ensures old(p.Rest()) == OutputItems(sent) + rest ==>
              p.Rest() == rest
              && output == (if sent.Some? then Some(sent.value.(phyAddr := None, flag := None, virAddr := None)) else None)
  {
    var valid := p.ReadInt32();
    output := None;
    if valid != 0 {
      var fd := p.ReadFileDescriptor();
      var size := p.ReadUint32();
      output := Some(InOut(fd, size, None, None, None));
    }
  }

  method ReadBuffers(p: Parcel, memory: bool, ghost sent: Option<seq<InOut>>, ghost rest: seq<Item>)
    returns (ok: bool, buffer: Option<seq<InOut>>)
    requires p.Valid() && (sent.Some? ==> |sent.value| < WORDS && Filled(sent.value))
    modifies p`pos
    ensures p.Valid() && (!ok ==> !memory)
    ensures old(p.Rest()) == BufferItems(sent) + rest ==> (ok <==> memory || sent.None? || sent.value == [])
    ensures old(p.Rest()) == BufferItems(sent) + rest && ok ==>
              && p.Rest() == rest
              && buffer == (if sent.Some? && sent.value != [] then Some(WithoutAddresses(sent.value)) else None)
  {
    hide Buffers;
    NoBuffers();
    ghost var good := p.Rest() == BufferItems(sent) + rest;
    var valid := p.ReadInt32();
    buffer := None;
    if valid != 0 {
      var count := p.ReadUint32();
      if count != 0 {
        if !memory {
          return false, None;
        }
        ghost var bs := if good then sent.value else [];
        assert good ==> |bs| == count && p.Rest() == Buffers(bs) + rest;
        var read := ReadBufferList(p, count, bs, rest);
        buffer := Some(read);
      }
    }
    ok := true;
  }

  method ReadBufferList(p: Parcel, count: nat, ghost bs: seq<InOut>, ghost rest: seq<Item>) returns (read: seq<InOut>)
    requires p.Valid() && Filled(bs)
    modifies p`pos
    ensures p.Valid() && |read| == count
    ensures |bs| == count && old(p.Rest()) == Buffers(bs) + rest ==> p.Rest() == rest && read == WithoutAddresses(bs)
  {
    hide Buffers, OneBuffer, WithoutAddresses;
    ghost var good := |bs| == count && p.Rest() == Buffers(bs) + rest;
    read := [];
    assert bs[0..] == bs;
    NoBuffers();
    for i := 0 to count
      invariant p.Valid() && |read| == i
      invariant good ==> p.Rest() == Buffers(bs[i..]) + rest
      invariant good ==> forall j :: 0 <= j < i ==> read[j] == bs[j].(virAddr := None)
    {
      ghost var b := if good then bs[i] else InOut(0, 0, Some(0), Some(0), None);
      ghost var after := if good then Buffers(bs[i + 1..]) + rest else [];
      if good { BuffersFirst(bs, i, rest); }
      var next := ReadOneBuffer(p, b, after);
      read := read + [next];
    }
    if good {
      assert bs[count..] == [] && [] + rest == rest;
      AllRead(read, bs);
    }
  }

  lemma AllRead(read: seq<InOut>, bs: seq<InOut>)
    requires |read| == |bs| && forall j :: 0 <= j < |bs| ==> read[j] == bs[j].(virAddr := None)
    ensures read == WithoutAddresses(bs)
  {
  }

  lemma NoBuffers()
    ensures Buffers([]) == []
  {
  }

  lemma BuffersFirst(bs: seq<InOut>, i: nat, rest: seq<Item>)
    requires Filled(bs) && i < |bs|
    ensures Buffers(bs[i..]) + rest == OneBuffer(bs[i]) + (Buffers(bs[i + 1..]) + rest)
  {
    assert bs[i..][1..] == bs[i + 1..];
  }

  method ReadOneBuffer(p: Parcel, ghost sent: InOut, ghost rest: seq<Item>) returns (b: InOut)
    requires p.Valid() && sent.phyAddr.Some? && sent.flag.Some?
    modifies p`pos
    ensures p.Valid()
    ensures old(p.Rest()) == OneBuffer(sent) + rest ==> p.Rest() == rest && b == sent.(virAddr := None)
  {
    SignedRoundTrip(sent.flag.value);
    var fd := p.ReadFileDescriptor();
    var size := p.ReadUint32();
    var phyAddr := p.ReadUint32();
    var flag := p.ReadInt32();
    b := InOut(fd, size, Some(phyAddr), Some(ToWord(flag)), None);
  }
}
