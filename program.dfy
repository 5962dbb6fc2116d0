/** The symbol tables of the traced binary (src/program.rs): symbol lookup
    by name and by address, the PLT range test, source locations, and the
    iterator that picks instructions of one mnemonic out of a decoded
    stream. Parsing the ELF file, DWARF and the disassembler are foreign
    libraries; their results appear here as data (the tables a Program
    holds, and the decoded instruction stream). */
module Programs {
  import opened Util

  /** Name of a function symbol that exists in the program. */
  datatype FunctionName = FunctionName(name: string)

  /** The `{:?}` rendering of a FunctionName that probe headers use. The
      model only relies on it being some fixed text per name. */
  function DebugName(f: FunctionName): string
  {
    "FunctionName(\"" + f.name + "\")"
  }

  datatype SymbolInfo = SymbolInfo(
    name: FunctionName,
    demangledName: Option<string>,
    sectionIndex: Option<nat>,
    address: nat,
    size: nat)

  /** The name shown to users: the demangled name when there is one. */
  function DisplayName(s: SymbolInfo): string
  {
    match s.demangledName
    case Some(dn) => dn
    case None => s.name.name
  }

  /** A source location as DWARF line information gives it; either part may
      be missing. */
  datatype Location = Location(file: Option<string>, line: Option<nat>)

  /** The outcome of asking the line tables about one address. */
  datatype LocationLookup = LookupFailed | NoLocation | Found(location: Location)

  /** `Program` after loading. `nameToSymbol` is the symbol table keyed by
      name and `symbolOrder` the order in which that hash map iterates over
      its keys; `debugInfo` holds the answer of the line tables for each
      address they know; `[pltStart, pltEnd)` is the `.plt` section. */
  datatype Program = Program(
    filePath: string,
    nameToSymbol: map<FunctionName, SymbolInfo>,
    symbolOrder: seq<FunctionName>,
    debugInfo: map<nat, LocationLookup>,
    pltStart: nat,
    pltEnd: nat,
    dynamicSymbolsMap: map<nat, FunctionName>)
  {
    /** The iteration order lists every key of the symbol table exactly once. */
    ghost predicate Valid()
    {
      && IsEnumeration(symbolOrder, nameToSymbol.Keys)
      && forall f :: f in nameToSymbol ==> nameToSymbol[f].name == f
    }

    /** `address_to_name`: the symbol table re-keyed by address. */
    function AddressToName(): map<nat, FunctionName>
      requires Valid()
    {
      AddressIndex(nameToSymbol, symbolOrder)
    }
  }

  /** `order` lists the elements of `keys`, each exactly once. */
  ghost predicate IsEnumeration<K>(order: seq<K>, keys: set<K>)
  {
    && (forall i :: 0 <= i < |order| ==> order[i] in keys)
    && (forall k :: k in keys ==> k in order)
    && (forall i, j :: 0 <= i < j < |order| ==> order[i] != order[j])
  }

  /** Re-keying the symbol table by address as the map is iterated in
      `order`, leaving out symbols at address 0 (dynamically linked ones);
      when two symbols share an address the later one wins. Every key of the
      result is a non-zero address, maps to a symbol at that address, and
      every symbol at a non-zero address has its address as a key. */
  function AddressIndex(nts: map<FunctionName, SymbolInfo>, order: seq<FunctionName>): (r: map<nat, FunctionName>)
    requires forall i :: 0 <= i < |order| ==> order[i] in nts
    ensures 0 !in r
    ensures forall a :: a in r ==> r[a] in nts && nts[r[a]].address == a
    ensures forall i :: 0 <= i < |order| && nts[order[i]].address != 0 ==> nts[order[i]].address in r
  {
    if order == [] then map[]
    else
      var rest := AddressIndex(nts, order[..|order| - 1]);
      var f := order[|order| - 1];
      if nts[f].address != 0 then rest[nts[f].address := f] else rest
  }

  /** The names in `order` whose display name contains `query`, in order. */
  function ContainingNames(nts: map<FunctionName, SymbolInfo>, order: seq<FunctionName>, query: string): seq<FunctionName>
    requires forall i :: 0 <= i < |order| ==> order[i] in nts
  {
    if order == [] then []
    else
      var rest := ContainingNames(nts, order[..|order| - 1], query);
      var f := order[|order| - 1];
      if Contains(DisplayName(nts[f]), query) then rest + [f] else rest
  }

  /** `Program::get_matches`. An exact match on the display name wins alone;
      otherwise every symbol whose display name contains the query, in the
      order the symbol table is iterated. */
  method GetMatches(p: Program, query: string) returns (matches: seq<FunctionName>)
    requires p.Valid()
    ensures (exists f :: f in p.nameToSymbol && DisplayName(p.nameToSymbol[f]) == query) ==>
              |matches| == 1 && matches[0] in p.nameToSymbol && DisplayName(p.nameToSymbol[matches[0]]) == query
    ensures (forall f :: f in p.nameToSymbol ==> DisplayName(p.nameToSymbol[f]) != query) ==>
              matches == ContainingNames(p.nameToSymbol, p.symbolOrder, query)
  {
    var order := p.symbolOrder;
    matches := [];
    var i := 0;
    while i < |order|
      invariant 0 <= i <= |order|
      invariant forall k :: 0 <= k < i ==> DisplayName(p.nameToSymbol[order[k]]) != query
      invariant matches == ContainingNames(p.nameToSymbol, order[..i], query)
    {
      var name := order[i];
      var displayName := DisplayName(p.nameToSymbol[name]);
      if displayName == query {
        return [name];
      }
      assert order[..i + 1][..i] == order[..i];
      if Contains(displayName, query) {
        matches := matches + [name];
      }
      i := i + 1;
    }
    assert order[..i] == order;
    forall f | f in p.nameToSymbol ensures DisplayName(p.nameToSymbol[f]) != query {
      var k :| 0 <= k < |order| && order[k] == f;
    }
  }

  /** `Program::get_location`: a location is returned only when the line
      tables know the address and give both a file and a line. */
  function GetLocation(p: Program, address: nat): (r: Option<Location>)
    ensures r.Some? <==> address in p.debugInfo && p.debugInfo[address].Found?
                         && p.debugInfo[address].location.file.Some?
                         && p.debugInfo[address].location.line.Some?
    ensures r.Some? ==> r.value == p.debugInfo[address].location
  {
    if address !in p.debugInfo then None
    else match p.debugInfo[address]
      case LookupFailed => None
      case NoLocation => None
      case Found(l) =>
        if l.file.None? then None
        else if l.line.None? then None
        else Some(l)
  }

  /** The bytes of a function's code: `size` bytes at `address` in section
      `section`. */
  datatype CodeRange = CodeRange(address: nat, section: nat, size: nat)

  /** `Program::get_data`: symbols at address 0 are dynamically linked and
      have no code in this file. */
  function GetData(p: Program, fn: FunctionName): (r: Result<CodeRange, string>)
    requires fn in p.nameToSymbol
    requires p.nameToSymbol[fn].address != 0 ==> p.nameToSymbol[fn].sectionIndex.Some?
    ensures r.Err? <==> p.nameToSymbol[fn].address == 0
    ensures r.Ok? ==> r.value.address == p.nameToSymbol[fn].address
                      && r.value.size == p.nameToSymbol[fn].size
                      && Some(r.value.section) == p.nameToSymbol[fn].sectionIndex
  {
    var symbol := p.nameToSymbol[fn];
    if symbol.address == 0 then
      Err("Cannot get data for dynamically linked symbol " + fn.name)
    else
      Ok(CodeRange(symbol.address, symbol.sectionIndex.value, symbol.size))
  }

  /** `Program::is_dynamic_symbol`: the address lies in the `.plt` section. */
  predicate IsDynamicSymbol(p: Program, address: nat)
  {
    p.pltStart <= address < p.pltEnd
  }

  /** `Program::get_function_for_address`: PLT addresses are resolved
      through the dynamic symbol map, all others through the symbol table. */
  function GetFunctionForAddress(p: Program, address: nat): (r: Option<FunctionName>)
    requires p.Valid()
    ensures IsDynamicSymbol(p, address) ==>
              (r.Some? <==> address in p.dynamicSymbolsMap) && (r.Some? ==> r.value == p.dynamicSymbolsMap[address])
    ensures !IsDynamicSymbol(p, address) ==>
              (r.Some? <==> address in p.AddressToName()) && (r.Some? ==> r.value == p.AddressToName()[address])
    ensures r.Some? && !IsDynamicSymbol(p, address) ==>
              address != 0 && r.value in p.nameToSymbol && p.nameToSymbol[r.value].address == address
  {
    if IsDynamicSymbol(p, address) then
      if address in p.dynamicSymbolsMap then Some(p.dynamicSymbolsMap[address]) else None
    else
      var index := p.AddressToName();
      if address in index then Some(index[address]) else None
  }

  // ---------------------------------------------------------------------
  // Decoded instructions and the mnemonic filter
  // ---------------------------------------------------------------------

  datatype Mnemonic = Call | Jmp | OtherMnemonic(code: nat)

  datatype Register = NoRegister | Reg(name: string)

  /** The first operand of a decoded instruction: a register operand, or a
      memory operand with a base register and displacement; `target` is the
      absolute address the decoder computes for a direct operand. */
  datatype Operand = Operand(reg: Register, memBase: Register, displacement: I64, target: nat)

  datatype DecodedInstruction = DecodedInstruction(mnemonic: Mnemonic, length: nat, operand: Operand)

  /** An instruction together with its address. */
  datatype Decoded = Decoded(instruction: DecodedInstruction, ip: nat)

  /** The decoded instructions with mnemonic `m`, in decode order. */
  function WithMnemonic(stream: seq<Decoded>, m: Mnemonic): (r: seq<Decoded>)
    ensures |r| <= |stream|
  {
    if stream == [] then []
    else if stream[0].instruction.mnemonic == m then [stream[0]] + WithMnemonic(stream[1..], m)
    else WithMnemonic(stream[1..], m)
  }

  /** The filter keeps exactly the instructions with the mnemonic. */
  lemma {:induction false} WithMnemonicMembers(stream: seq<Decoded>, m: Mnemonic)
    ensures forall d :: d in WithMnemonic(stream, m) <==> d in stream && d.instruction.mnemonic == m
  {
    if stream != [] {
      WithMnemonicMembers(stream[1..], m);
      assert stream == [stream[0]] + stream[1..];
    }
  }

  /** `CallIterator`: walks the decoded stream and stops at each instruction
      whose mnemonic matches. `yielded` is what it has produced so far. */
  class CallIterator {
    const stream: seq<Decoded>
    const mnemonic: Mnemonic
    var pos: nat
    ghost var yielded: seq<Decoded>

    ghost predicate Valid()
      reads this
    {
      && pos <= |stream|
      && yielded + WithMnemonic(stream[pos..], mnemonic) == WithMnemonic(stream, mnemonic)
    }

    /** `get_instructions_with_mnemonic`. */
    constructor (stream: seq<Decoded>, mnemonic: Mnemonic)
      ensures Valid() && this.stream == stream && this.mnemonic == mnemonic
      ensures pos == 0 && yielded == []
    {
      this.stream := stream;
      this.mnemonic := mnemonic;
      pos := 0;
      yielded := [];
      new;
      assert stream[0..] == stream;
    }

    /** `CallIterator::next`: the next instruction with the mnemonic, or
        `None` once the stream is exhausted. */
    method Next() returns (r: Option<Decoded>)
      requires Valid()
      modifies this
      ensures Valid()
      ensures r.None? ==> pos == |stream| && yielded == old(yielded) == WithMnemonic(stream, mnemonic)
      ensures r.Some? ==> r.value.instruction.mnemonic == mnemonic && r.value in stream
                          && yielded == old(yielded) + [r.value] && pos > old(pos)
    {
      while pos < |stream|
        invariant Valid() && yielded == old(yielded) && pos >= old(pos)
      {
        var d := stream[pos];
        assert stream[pos..] == [d] + stream[pos + 1..];
        pos := pos + 1;
        if d.instruction.mnemonic == mnemonic {
          yielded := yielded + [d];
          return Some(d);
        }
      }
      assert stream[pos..] == [];
      return None;
    }
  }

  /** Draining the iterator, as a `for` loop over it does: exactly the
      instructions with the mnemonic, in decode order. */
  method InstructionsWithMnemonic(stream: seq<Decoded>, m: Mnemonic) returns (found: seq<Decoded>)
    ensures found == WithMnemonic(stream, m)
  {
    var it := new CallIterator(stream, m);
    found := [];
    while true
      invariant it.Valid() && it.stream == stream && it.mnemonic == m
      invariant found == it.yielded
      decreases |stream| - it.pos
    {
      ghost var before := it.pos;
      var next := it.Next();
      match next {
        case None => return;
        case Some(d) => found := found + [d];
      }
      assert it.pos > before;
    }
  }
}
