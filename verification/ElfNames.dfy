/** Extraction of kernel names from an ELF64 file, by the layout of the System V ABI.
    (include/deep_jit/backend/ascend/kernel.hpp) */
module ElfNames {
  import opened Bytes

  // ---- 64-bit arithmetic and reading ----

  /** An addition of `uint64_t` values: every use proves that it does not wrap. */
  function Add64(a: nat, b: nat): nat
    requires a + b < 0x1_0000_0000_0000_0000
  {
    a + b
  }

  /** An unsigned field of n bytes at `offset`: every use proves that it lies inside the data. */
  function Field(data: bytes, offset: nat, n: nat): nat
    requires offset + n <= |data|
  {
    FromLittleEndian(data[offset..offset + n])
  }

  /** `memcmp` and `string_view` windows, with the same obligation. */
  function Window(data: bytes, offset: nat, n: nat): (w: bytes)
    requires offset + n <= |data|
    ensures |w| == n
  {
    data[offset..offset + n]
  }

  predicate InRange(data: Str, offset: nat, size: nat) { offset <= |data| && size <= |data| - offset }

  // ---- Header and sections ----

  const EHDR := 64
  const SHDR := 64
  const SYM := 24
  const MAGIC: bytes := [0x7f, 0x45, 0x4c, 0x46]

  datatype Header = Header(kind: nat, machine: nat, shoff: nat, shentsize: nat, shnum: nat, shstrndx: nat)

  datatype Section = Section(name: nat, kind: nat, offset: nat, size: nat, link: nat, entsize: nat)

  function HeaderOf(data: Str): Header
    requires |data| >= EHDR
  {
    Header(Field(data, 16, 2), Field(data, 18, 2), Field(data, 40, 8), Field(data, 58, 2), Field(data, 60, 2), Field(data, 62, 2))
  }

  predicate HeaderOk(data: Str) {
    && |data| >= EHDR
    && Window(data, 0, 4) == MAGIC && ValueOf(data[4]) == 2 && ValueOf(data[5]) == 1
    && var h := HeaderOf(data);
       h.shentsize == SHDR && h.shnum > 0 && InRange(data, h.shoff, h.shnum * SHDR)
  }

  function SectionAt(data: Str, at: nat): Section
    requires at + SHDR <= |data|
  {
    Section(Field(data, at, 4), Field(data, at + 4, 4), Field(data, at + 24, 8), Field(data, at + 32, 8), Field(data, at + 40, 4), Field(data, at + 56, 8))
  }

  function Sections(data: Str): (ss: seq<Section>)
    requires HeaderOk(data)
    ensures |ss| == HeaderOf(data).shnum
  {
    var h := HeaderOf(data);
    seq(h.shnum, i requires 0 <= i < h.shnum => SectionAt(data, h.shoff + i * SHDR))
  }

  /** The product that measures the section table does not wrap either. */
  lemma SectionTableFits(data: Str)
    requires |data| >= EHDR
    ensures HeaderOf(data).shnum * SHDR < 0x1_0000_0000_0000_0000
  {
    FromLittleEndianBound(data[60..60 + 2]);
    assert Pow256(2) == 65536;
  }

  // ---- Strings in a string table ----

  function FindZero(table: bytes, from: nat): (end: Option<nat>)
    ensures end.Some? ==> from <= end.value < |table| && table[end.value] == 0 && forall k :: from <= k < end.value ==> table[k] != 0
    ensures end == None ==> forall k :: from <= k < |table| ==> table[k] != 0
    decreases |table| - from
  {
    if from >= |table| then None else if table[from] == 0 then Some(from) else FindZero(table, from + 1)
  }

  /** The zero-terminated string at an index, if the table holds one. */
  function StringAt(table: bytes, at: nat): Option<bytes> {
    if at >= |table| || FindZero(table, at) == None then None else Some(table[at..FindZero(table, at).value])
  }

  predicate StartsWith(s: bytes, p: bytes) { p <= s }

  predicate EndsWith(s: bytes, p: bytes) { |p| <= |s| && s[|s| - |p|..] == p }

  function Without(s: bytes, suffix: bytes): bytes
    requires EndsWith(s, suffix)
  {
    s[..|s| - |suffix|]
  }

  // ---- Ascending lists of strings ----

  predicate Less(a: bytes, b: bytes) {
    if b == [] then false else if a == [] then true
    else if a[0] != b[0] then ValueOf(a[0]) < ValueOf(b[0]) else Less(a[1..], b[1..])
  }

  predicate Ascending(s: seq<bytes>) { forall i, j :: 0 <= i < j < |s| ==> Less(s[i], s[j]) }

  lemma {:induction false} LessTotal(a: bytes, b: bytes)
    ensures a == b || Less(a, b) || Less(b, a)
    ensures !(Less(a, b) && Less(b, a)) && !Less(a, a)
  {
    if a != [] && b != [] {
      if a[0] == b[0] {
        LessTotal(a[1..], b[1..]);
        assert a == [a[0]] + a[1..] && b == [b[0]] + b[1..];
      } else {
        LessTotal(a[1..], a[1..]);
      }
    }
    if a != [] {
      LessTotal(a[1..], a[1..]);
    }
  }

  lemma {:induction false} LessTransitive(a: bytes, b: bytes, c: bytes)
    requires Less(a, b) && Less(b, c)
    ensures Less(a, c)
  {
    if a != [] && b != [] && c != [] && a[0] == b[0] == c[0] {
      LessTransitive(a[1..], b[1..], c[1..]);
    }
  }

  /** `std::set::emplace` on the ascending list of the set's elements. */
  function Inserted(s: seq<bytes>, x: bytes): seq<bytes> {
    if s == [] then [x]
    else if x == s[0] then s
    else if Less(x, s[0]) then [x] + s
    else [s[0]] + Inserted(s[1..], x)
  }

  lemma {:induction false} InsertedMembers(s: seq<bytes>, x: bytes)
    ensures forall y :: y in Inserted(s, x) <==> y in s || y == x
  {
    if s != [] && x != s[0] && !Less(x, s[0]) {
      InsertedMembers(s[1..], x);
      assert forall y :: y in s <==> y == s[0] || y in s[1..];
    }
  }

  lemma {:induction false} InsertedAscending(s: seq<bytes>, x: bytes)
    requires Ascending(s)
    ensures Ascending(Inserted(s, x))
  {
    if s != [] && x != s[0] {
      LessTotal(x, s[0]);
      if Less(x, s[0]) {
        forall j | 0 < j < |s|
          ensures Less(x, s[j])
        {
          LessTransitive(x, s[0], s[j]);
        }
      } else {
        InsertedAscending(s[1..], x);
        InsertedMembers(s[1..], x);
        var rest := Inserted(s[1..], x);
        forall j | 0 <= j < |rest|
          ensures Less(s[0], rest[j])
        {
          assert rest[j] in rest;
        }
      }
    }
  }

  /** `std::ranges::sort` and the erasure of `std::ranges::unique`: the ascending list of the distinct names. */
  method SortUnique(names: seq<bytes>) returns (sorted: seq<bytes>)
    ensures Ascending(sorted) && forall x :: x in sorted <==> x in names
  {
    sorted := [];
    for i := 0 to |names|
      invariant Ascending(sorted) && forall x :: x in sorted <==> x in names[..i]
    {
      InsertedMembers(sorted, names[i]);
      InsertedAscending(sorted, names[i]);
      sorted := Inserted(sorted, names[i]);
      assert names[..i + 1] == names[..i] + [names[i]];
    }
    assert names[..|names|] == names;
  }

  // ---- AICore binaries: names of sections ----

  const META: bytes := [0x2e, 0x61, 0x73, 0x63, 0x65, 0x6e, 0x64, 0x2e, 0x6d, 0x65, 0x74, 0x61, 0x2e] // ".ascend.meta."
  const MIX_AIC: bytes := [0x5f, 0x6d, 0x69, 0x78, 0x5f, 0x61, 0x69, 0x63] // "_mix_aic"
  const MIX_AIV: bytes := [0x5f, 0x6d, 0x69, 0x78, 0x5f, 0x61, 0x69, 0x76] // "_mix_aiv"

  function StripMix(s: bytes): bytes {
    if EndsWith(s, MIX_AIC) then Without(s, MIX_AIC) else if EndsWith(s, MIX_AIV) then Without(s, MIX_AIV) else s
  }

  /** The kernel that a section name stands for, if it is one of `.ascend.meta.`. */
  function MetaName(name: Option<bytes>): Option<bytes> {
    if name.Some? && StartsWith(name.value, META) then Some(StripMix(name.value[|META|..])) else None
  }

  function TableIndex(data: Str): nat
    requires HeaderOk(data)
  {
    if HeaderOf(data).shstrndx == 0xffff then Sections(data)[0].link else HeaderOf(data).shstrndx
  }

  predicate TableOk(data: Str)
    requires HeaderOk(data)
  {
    TableIndex(data) < |Sections(data)| && var s := Sections(data)[TableIndex(data)]; InRange(data, s.offset, s.size)
  }

  function Table(data: Str): bytes
    requires HeaderOk(data) && TableOk(data)
  {
    var s := Sections(data)[TableIndex(data)]; Window(data, s.offset, s.size)
  }

  predicate NamesKernel(data: Str, i: nat, n: bytes)
    requires HeaderOk(data) && TableOk(data)
  {
    i < |Sections(data)| && MetaName(StringAt(Table(data), Sections(data)[i].name)) == Some(n)
  }

  /** One round of the section loop: the name that it collects, if it comes to the end. */
  method CollectName(table: bytes, at: nat) returns (collected: Option<bytes>)
    ensures collected == MetaName(StringAt(table, at))
  {
    if at >= |table| {
      return None;
    }
    var end := FindZero(table, at);
    if end == None {
      return None;
    }
    var name := table[at..end.value];
    if !StartsWith(name, META) {
      return None;
    }
    name := name[|META|..];
    if EndsWith(name, MIX_AIC) {
      name := Without(name, MIX_AIC);
    } else if EndsWith(name, MIX_AIV) {
      name := Without(name, MIX_AIV);
    }
    return Some(name);
  }

  ghost predicate Collected(data: Str, names: seq<bytes>, count: nat)
    requires HeaderOk(data) && TableOk(data)
  {
    forall n :: n in names <==> exists i: nat :: i < count && NamesKernel(data, i, n)
  }

  lemma CollectNext(data: Str, names: seq<bytes>, i: nat, name: Option<bytes>)
    requires HeaderOk(data) && TableOk(data) && i < |Sections(data)| && Collected(data, names, i)
    requires name == MetaName(StringAt(Table(data), Sections(data)[i].name))
    ensures Collected(data, if name.Some? then names + [name.value] else names, i + 1)
  {
    assert forall n :: NamesKernel(data, i, n) <==> name == Some(n);
    forall n
      ensures (exists j: nat :: j < i + 1 && NamesKernel(data, j, n)) <==> (n in names || name == Some(n))
    {
      if n in names {
        var j: nat :| j < i && NamesKernel(data, j, n);
      }
    }
  }

  /** It rejects exactly a string table that is out of range; else it gives, strictly ascending, exactly the
      kernels that sections name. */
  method AicoreNames(data: Str) returns (r: Option<seq<bytes>>)
    requires HeaderOk(data)
    ensures r.Some? <==> TableOk(data)
    ensures r.Some? ==> Ascending(r.value) && forall n :: n in r.value <==> exists i: nat :: NamesKernel(data, i, n)
  {
    var sections := Sections(data);
    var index := if HeaderOf(data).shstrndx == 0xffff then sections[0].link else HeaderOf(data).shstrndx;
    if index >= |sections| || !InRange(data, sections[index].offset, sections[index].size) {
      return None;
    }
    var table := Window(data, sections[index].offset, sections[index].size);
    var names: seq<bytes> := [];
    for i := 0 to |sections|
      invariant Collected(data, names, i)
    {
      var name := CollectName(table, sections[i].name);
      CollectNext(data, names, i, name);
      if name.Some? {
        names := names + [name.value];
      }
    }
    var sorted := SortUnique(names);
    assert forall i: nat, n :: NamesKernel(data, i, n) ==> i < |sections|;
    return Some(sorted);
  }

  // ---- AICPU binaries: pairs of exported functions ----

  const DYNSYM := 11
  const STRTAB := 3
  const INTERFACE: bytes := [0x5f, 0x69, 0x6e, 0x74, 0x65, 0x72, 0x66, 0x61, 0x63, 0x65] // "_interface"

  datatype Symbol = Symbol(name: nat, info: nat, other: nat, shndx: nat) {
    /** A global function of default visibility that is defined here. */
    predicate Exported() { info % 16 == 2 && info / 16 == 1 && other % 4 == 0 && shndx != 0 }
  }

  function SymbolAt(data: Str, at: nat): Symbol
    requires at + SYM <= |data|
  {
    Symbol(Field(data, at, 4), ValueOf(data[at + 4]), ValueOf(data[at + 5]), Field(data, at + 6, 2))
  }

  /** A dynamic symbol table has well-formed sizes, its string table exists, and both lie inside the data. */
  predicate SymTableOk(data: Str, sections: seq<Section>, s: Section) {
    && s.entsize == SYM && s.size % SYM == 0 && s.link < |sections|
    && sections[s.link].kind == STRTAB
    && InRange(data, s.offset, s.size) && InRange(data, sections[s.link].offset, sections[s.link].size)
  }

  function Strings(data: Str, sections: seq<Section>, s: Section): bytes
    requires SymTableOk(data, sections, s)
  {
    Window(data, sections[s.link].offset, sections[s.link].size)
  }

  function SymbolIn(data: Str, sections: seq<Section>, s: Section, k: nat): Symbol
    requires SymTableOk(data, sections, s) && k < s.size / SYM
  {
    SymbolAt(data, s.offset + k * SYM)
  }

  /** The name that symbol k of the table exports. */
  ghost predicate Exports(data: Str, sections: seq<Section>, s: Section, k: nat, n: bytes)
    requires SymTableOk(data, sections, s)
  {
    && k < s.size / SYM && SymbolIn(data, sections, s, k).Exported()
    && StringAt(Strings(data, sections, s), SymbolIn(data, sections, s, k).name) == Some(n)
  }

  /** Every exported symbol of the table has a terminated name. */
  ghost predicate NamesOk(data: Str, sections: seq<Section>, s: Section, count: nat)
    requires SymTableOk(data, sections, s) && count <= s.size / SYM
  {
    forall k: nat :: k < count && SymbolIn(data, sections, s, k).Exported() ==>
      StringAt(Strings(data, sections, s), SymbolIn(data, sections, s, k).name).Some?
  }

  ghost predicate SectionOk(data: Str, sections: seq<Section>, s: Section) {
    s.kind == DYNSYM ==> SymTableOk(data, sections, s) && NamesOk(data, sections, s, s.size / SYM)
  }

  ghost predicate SectionExports(data: Str, sections: seq<Section>, s: Section, n: bytes) {
    s.kind == DYNSYM && SymTableOk(data, sections, s) && exists k: nat :: Exports(data, sections, s, k, n)
  }

  function ExportedName(data: Str, sections: seq<Section>, s: Section, k: nat): Option<bytes>
    requires SymTableOk(data, sections, s) && k < s.size / SYM
  {
    var symbol := SymbolIn(data, sections, s, k);
    if symbol.Exported() then StringAt(Strings(data, sections, s), symbol.name) else None
  }

  ghost predicate Gathered(data: Str, sections: seq<Section>, s: Section, symbols: seq<bytes>, all: seq<bytes>, count: nat)
    requires SymTableOk(data, sections, s)
  {
    && Ascending(all)
    && forall n :: n in all <==> n in symbols || exists k: nat :: k < count && Exports(data, sections, s, k, n)
  }

  lemma GatherNext(data: Str, sections: seq<Section>, s: Section, symbols: seq<bytes>, all: seq<bytes>, count: nat)
    requires SymTableOk(data, sections, s) && count < s.size / SYM && Gathered(data, sections, s, symbols, all, count)
    ensures var name := ExportedName(data, sections, s, count);
            Gathered(data, sections, s, symbols, if name.Some? then Inserted(all, name.value) else all, count + 1)
  {
    var name := ExportedName(data, sections, s, count);
    assert forall n :: Exports(data, sections, s, count, n) <==> name == Some(n);
    if name.Some? {
      InsertedMembers(all, name.value);
      InsertedAscending(all, name.value);
    }
    forall n
      ensures (exists k: nat :: k < count + 1 && Exports(data, sections, s, k, n)) <==>
              (exists k: nat :: k < count && Exports(data, sections, s, k, n)) || name == Some(n)
    {
    }
  }

  /** The symbol loop over one table: it stops at the first bad name. */
  method ReadTable(data: Str, sections: seq<Section>, s: Section, symbols: seq<bytes>) returns (ok: bool, all: seq<bytes>)
    requires SymTableOk(data, sections, s) && Ascending(symbols)
    ensures ok <==> NamesOk(data, sections, s, s.size / SYM)
    ensures ok ==> Gathered(data, sections, s, symbols, all, s.size / SYM)
  {
    var names := Window(data, sections[s.link].offset, sections[s.link].size);
    all := symbols;
    var offset := 0;
    ghost var count := 0;
    while offset < s.size
      invariant offset == count * SYM && count <= s.size / SYM
      invariant NamesOk(data, sections, s, count) && Gathered(data, sections, s, symbols, all, count)
      decreases s.size - offset
    {
      var symbol := SymbolAt(data, Add64(s.offset, offset));
      assert symbol == SymbolIn(data, sections, s, count);
      GatherNext(data, sections, s, symbols, all, count);
      if symbol.Exported() {
        if symbol.name >= |names| || FindZero(names, symbol.name) == None {
          return false, all;
        }
        all := Inserted(all, names[symbol.name..FindZero(names, symbol.name).value]);
      }
      offset := Add64(offset, SYM);
      count := count + 1;
    }
    ok := true;
  }

  ghost predicate AllGathered(data: Str, sections: seq<Section>, all: seq<bytes>, count: nat)
    requires count <= |sections|
  {
    && Ascending(all)
    && forall n :: n in all <==> exists i: nat :: i < count && SectionExports(data, sections, sections[i], n)
  }

  lemma AllGatherNext(data: Str, sections: seq<Section>, was: seq<bytes>, all: seq<bytes>, i: nat)
    requires i < |sections| && AllGathered(data, sections, was, i)
    requires if sections[i].kind != DYNSYM then all == was
             else SymTableOk(data, sections, sections[i]) && Gathered(data, sections, sections[i], was, all, sections[i].size / SYM)
    ensures AllGathered(data, sections, all, i + 1)
  {
    forall n
      ensures n in all <==> n in was || SectionExports(data, sections, sections[i], n)
    {
    }
    forall n
      ensures (exists j: nat :: j < i + 1 && SectionExports(data, sections, sections[j], n)) <==>
              (exists j: nat :: j < i && SectionExports(data, sections, sections[j], n)) || SectionExports(data, sections, sections[i], n)
    {
    }
  }

  /** It rejects exactly when a dynamic symbol table or an exported name is bad; else it gives the names of
      all exported functions. */
  method AicpuSymbols(data: Str, sections: seq<Section>) returns (r: Option<seq<bytes>>)
    ensures r.Some? <==> forall i :: 0 <= i < |sections| ==> SectionOk(data, sections, sections[i])
    ensures r.Some? ==> AllGathered(data, sections, r.value, |sections|)
  {
    var symbols: seq<bytes> := [];
    for i := 0 to |sections|
      invariant forall j :: 0 <= j < i ==> SectionOk(data, sections, sections[j])
      invariant AllGathered(data, sections, symbols, i)
    {
      ghost var was := symbols;
      if sections[i].kind == DYNSYM {
        if !SymTableOk(data, sections, sections[i]) {
          return None;
        }
        var ok;
        ok, symbols := ReadTable(data, sections, sections[i], symbols);
        if !ok {
          return None;
        }
      }
      AllGatherNext(data, sections, was, symbols, i);
    }
    return Some(symbols);
  }

  /** The names n where both n and n_interface are among the symbols, in the order of the latter. */
  ghost predicate Pairs(symbols: seq<bytes>, kernels: seq<bytes>) {
    && (forall n :: n in kernels <==> n in symbols && n + INTERFACE in symbols)
    && (forall i, j :: 0 <= i < j < |kernels| ==> Less(kernels[i] + INTERFACE, kernels[j] + INTERFACE))
  }

  method MatchPairs(symbols: seq<bytes>) returns (kernels: seq<bytes>)
    requires Ascending(symbols)
    ensures Pairs(symbols, kernels)
  {
    kernels := [];
    for i := 0 to |symbols|
      invariant forall n :: n in kernels <==> n in symbols && n + INTERFACE in symbols[..i]
      invariant forall k, j :: 0 <= k < j < |kernels| ==> Less(kernels[k] + INTERFACE, kernels[j] + INTERFACE)
    {
      assert symbols[..i + 1] == symbols[..i] + [symbols[i]];
      assert forall n :: n + INTERFACE == symbols[i] <==> EndsWith(symbols[i], INTERFACE) && n == Without(symbols[i], INTERFACE);
      if EndsWith(symbols[i], INTERFACE) {
        var name := Without(symbols[i], INTERFACE);
        if name in symbols {
          forall k | 0 <= k < |kernels|
            ensures Less(kernels[k] + INTERFACE, symbols[i])
          {
            assert kernels[k] in kernels;
          }
          kernels := kernels + [name];
        }
      }
    }
    assert symbols[..|symbols|] == symbols;
  }

  /** Without repeats. */
  lemma PairsDistinct(symbols: seq<bytes>, kernels: seq<bytes>, i: nat, j: nat)
    requires Pairs(symbols, kernels) && i < j < |kernels|
    ensures kernels[i] != kernels[j]
  {
    LessTotal(kernels[i] + INTERFACE, kernels[j] + INTERFACE);
  }

  // ---- Both ----

  predicate IsAicpu(data: Str)
    requires HeaderOk(data)
  {
    HeaderOf(data).kind == 3 && HeaderOf(data).machine == 183
  }

  ghost predicate Accepted(data: Str) {
    && HeaderOk(data)
    && if IsAicpu(data) then forall i :: 0 <= i < |Sections(data)| ==> SectionOk(data, Sections(data), Sections(data)[i])
       else TableOk(data)
  }

  ghost predicate IsExported(data: Str, n: bytes)
    requires HeaderOk(data)
  {
    exists i: nat :: i < |Sections(data)| && SectionExports(data, Sections(data), Sections(data)[i], n)
  }

  /** `parse_kernel_names`: it rejects or accepts every byte string, and what it gives is exactly the AICore
      kernels, or the AICPU kernels whose function and interface are both exported. */
  method ParseKernelNames(data: Str) returns (r: Option<seq<bytes>>)
    ensures r.Some? <==> Accepted(data)
    ensures r.Some? && !IsAicpu(data) ==> Ascending(r.value) && forall n :: n in r.value <==> exists i: nat :: NamesKernel(data, i, n)
    ensures r.Some? && IsAicpu(data) ==>
              && (forall n :: n in r.value <==> IsExported(data, n) && IsExported(data, n + INTERFACE))
              && (forall i, j :: 0 <= i < j < |r.value| ==> r.value[i] != r.value[j])
  {
    if !HeaderOk(data) {
      return None;
    }
    if IsAicpu(data) {
      var symbols := AicpuSymbols(data, Sections(data));
      if symbols == None {
        return None;
      }
      var kernels := MatchPairs(symbols.value);
      forall i, j | 0 <= i < j < |kernels|
        ensures kernels[i] != kernels[j]
      {
        PairsDistinct(symbols.value, kernels, i, j);
      }
      return Some(kernels);
    }
    r := AicoreNames(data);
  }
}
