/** A library's symbol table: building it from the symbols of an ELF file, and finding the symbol that
    covers a file offset. */
module SymbolTable {
  import opened Collections
  import opened Sums
  import opened StableSort

  /** A symbol of the file; the name may be unreadable. */
  datatype ElfSymbol = ElfSymbol(address: nat, size: nat, name: Option<string>)

  datatype Symbol = Symbol(address: nat, size: nat, name: string)

  function Address(): Symbol -> nat {
    (s: Symbol) => s.address
  }

  ghost predicate Increasing(table: seq<Symbol>) {
    forall i, j :: 0 <= i < j < |table| ==> table[i].address < table[j].address
  }

  // ----- building the table

  /** Symbols with a name and an address. */
  predicate Usable(s: ElfSymbol) {
    s.name.Some? && s.name.value != "" && s.address > 0
  }

  /** The first usable symbol of the file at an address. */
  function FirstAt(file: seq<ElfSymbol>, address: nat): Option<Symbol> {
    if file == [] then None
    else if Usable(file[0]) && file[0].address == address then Some(Symbol(address, file[0].size, file[0].name.value))
    else FirstAt(file[1..], address)
  }

  /** The first symbol of a table at an address. */
  function Head(table: seq<Symbol>, address: nat): Option<Symbol> {
    var here := Matching(table, Address(), address);
    if here == [] then None else Some(here[0])
  }

  lemma {:induction false} FirstAtSnoc(file: seq<ElfSymbol>, s: ElfSymbol, address: nat)
    ensures FirstAt(file + [s], address) ==
            if FirstAt(file, address).Some? then FirstAt(file, address) else FirstAt([s], address)
  {
    if file == [] {
      assert file + [s] == [s];
    } else {
      FirstAtSnoc(file[1..], s, address);
      assert (file + [s])[1..] == file[1..] + [s];
    }
  }

  lemma HeadSnoc(table: seq<Symbol>, s: Symbol, address: nat)
    ensures Head(table + [s], address) ==
            if Head(table, address).Some? then Head(table, address)
            else if s.address == address then Some(s) else None
  {
    MatchingAcross(table, [s], Address(), address);
    assert [s][1..] == [];
    assert Matching([s], Address(), address) == if s.address == address then [s] else [];
  }

  /** The same table, seen by address. */
  ghost predicate FirstOfFile(table: seq<Symbol>, file: seq<ElfSymbol>) {
    forall a: nat :: Head(table, a) == FirstAt(file, a)
  }

  lemma PushKeeps(table: seq<Symbol>, file: seq<ElfSymbol>, s: ElfSymbol)
    requires FirstOfFile(table, file)
    ensures Usable(s) ==> FirstOfFile(table + [Symbol(s.address, s.size, s.name.value)], file + [s])
    ensures !Usable(s) || Head(table, s.address).Some? ==> FirstOfFile(table, file + [s])
  {
    forall a: nat ensures Usable(s) ==>
      Head(table + [Symbol(s.address, s.size, s.name.value)], a) == FirstAt(file + [s], a)
    {
      FirstAtSnoc(file, s, a);
      if Usable(s) {
        HeadSnoc(table, Symbol(s.address, s.size, s.name.value), a);
      }
    }
    forall a: nat | !Usable(s) || Head(table, s.address).Some? ensures Head(table, a) == FirstAt(file + [s], a) {
      FirstAtSnoc(file, s, a);
    }
  }

  /** `dedup_by_key`: keeps the first symbol of every run with one address. */
  method Dedup(sorted: seq<Symbol>) returns (table: seq<Symbol>)
    requires SortedBy(sorted, Address())
    ensures Increasing(table) && forall a: nat :: Head(table, a) == Head(sorted, a)
  {
    table := [];
    for i := 0 to |sorted|
      invariant Increasing(table)
      invariant forall j :: 0 <= j < |table| ==> i > 0 && table[j].address <= sorted[i - 1].address
      invariant i > 0 ==> table != [] && table[|table| - 1].address == sorted[i - 1].address
      invariant forall a: nat :: Head(table, a) == Head(sorted[..i], a)
    {
      assert sorted[..i + 1] == sorted[..i] + [sorted[i]];
      assert i > 0 ==> Address()(sorted[i - 1]) <= Address()(sorted[i]);
      var keep := table == [] || table[|table| - 1].address != sorted[i].address;
      DedupStep(table, sorted[..i], sorted[i], keep);
      if keep {
        table := table + [sorted[i]];
      }
    }
    assert sorted[..|sorted|] == sorted;
  }

  lemma DedupStep(table: seq<Symbol>, done: seq<Symbol>, s: Symbol, keep: bool)
    requires forall a: nat :: Head(table, a) == Head(done, a)
    requires keep || (table != [] && table[|table| - 1].address == s.address)
    ensures forall a: nat :: Head(if keep then table + [s] else table, a) == Head(done + [s], a)
  {
    forall a: nat ensures Head(if keep then table + [s] else table, a) == Head(done + [s], a) {
      HeadSnoc(table, s, a);
      HeadSnoc(done, s, a);
      if !keep {
        MatchingNone(table, Address(), s.address);
        assert Address()(table[|table| - 1]) == s.address;
      }
    }
  }

  lemma EmptyTable(table: seq<Symbol>, file: seq<ElfSymbol>)
    requires FirstOfFile(table, file)
    ensures table == [] <==> forall a: nat :: FirstAt(file, a).None?
  {
    if table == [] {
      forall a: nat ensures FirstAt(file, a).None? {
        assert Head(table, a).None?;
      }
    } else {
      var a := table[0].address;
      assert Head(table, a) == FirstAt(file, a) && FirstAt(file, a).Some?;
    }
  }

  /** The table has, in increasing order, exactly the first usable symbol of the file at each address. */
  ghost predicate TableOf(table: Option<seq<Symbol>>, file: seq<ElfSymbol>) {
    if table.None? then forall a: nat :: FirstAt(file, a).None?
    else Increasing(table.value) && FirstOfFile(table.value, file)
  }

  /** Builds the table of a file, none for a file without usable symbols; skipping an empty symbol at an
      address already seen makes no difference. */
  method ParseElfSymbols(file: seq<ElfSymbol>) returns (r: Option<seq<Symbol>>)
    ensures TableOf(r, file) && r != Some([])
  {
    var symbols: seq<Symbol> := [];
    for i := 0 to |file|
      invariant FirstOfFile(symbols, file[..i])
    {
      assert file[..i + 1] == file[..i] + [file[i]];
      var s := file[i];
      PushKeeps(symbols, file[..i], s);
      MatchingNone(symbols, Address(), s.address);
      if s.size == 0 && (exists j :: 0 <= j < |symbols| && symbols[j].address == s.address) {
        assert exists j :: 0 <= j < |symbols| && Address()(symbols[j]) == s.address;
        continue;
      }
      if Usable(s) {
        symbols := symbols + [Symbol(s.address, s.size, s.name.value)];
      }
    }
    assert file[..|file|] == file;
    SortIsStable(symbols, Address());
    var table := Dedup(SortByKey(symbols, Address()));
    assert FirstOfFile(table, file);
    EmptyTable(table, file);
    r := if table == [] then None else Some(table);
  }

  // ----- finding a symbol

  /** The last symbol at or below an offset, found by looking at every symbol. */
  function Nearest(table: seq<Symbol>, offset: nat): Option<Symbol> {
    if table == [] then None
    else if table[|table| - 1].address <= offset then Some(table[|table| - 1])
    else Nearest(table[..|table| - 1], offset)
  }

  /** The name to report: of the nearest symbol at or below the offset, when that starts at the offset,
      has no size, or ends above it; the end is computed in 64 bits. */
  function NameOf(nearest: Option<Symbol>, offset: nat): Option<string> {
    match nearest
    case None => None
    case Some(s) =>
      if s.address == offset || s.size == 0 || offset < Wrap64(s.address + s.size) then Some(s.name) else None
  }

  /** `binary_search_by_key`: the position of the key, or where it would be inserted. */
  method BinarySearch(table: seq<Symbol>, key: nat) returns (found: bool, i: nat)
    requires Increasing(table)
    ensures i <= |table| && (found ==> i < |table| && table[i].address == key)
    ensures !found ==> (forall j :: 0 <= j < i ==> table[j].address < key)
                       && (forall j :: i <= j < |table| ==> table[j].address > key)
  {
    var lo, hi := 0, |table|;
    while lo < hi
      invariant 0 <= lo <= hi <= |table|
      invariant forall j :: 0 <= j < lo ==> table[j].address < key
      invariant forall j :: hi <= j < |table| ==> table[j].address > key
    {
      var mid := (lo + hi) / 2;
      if table[mid].address == key {
        return true, mid;
      } else if table[mid].address < key {
        lo := mid + 1;
      } else {
        hi := mid;
      }
    }
    return false, lo;
  }

  lemma {:induction false} NearestIs(table: seq<Symbol>, offset: nat, n: nat)
    requires Increasing(table) && n <= |table|
    requires n > 0 ==> table[n - 1].address <= offset
    requires n < |table| ==> table[n].address > offset
    ensures Nearest(table, offset) == if n == 0 then None else Some(table[n - 1])
  {
    if n < |table| {
      NearestIs(table[..|table| - 1], offset, n);
    }
  }

  /** The search answers as the linear definition does. */
  method FindSymbol(table: seq<Symbol>, offset: nat) returns (name: Option<string>)
    requires Increasing(table)
    ensures name == NameOf(Nearest(table, offset), offset)
  {
    var found, i := BinarySearch(table, offset);
    NearestIs(table, offset, if found then i + 1 else i);
    if found {
      name := Some(table[i].name);
    } else if i > 0 {
      var s := table[i - 1];
      if s.size == 0 || offset < Wrap64(s.address + s.size) {
        name := Some(s.name);
      } else {
        name := None;
      }
    } else {
      name := None;
    }
  }

  /** The greatest address at or below the offset. */
  lemma {:induction false} NearestIsGreatest(table: seq<Symbol>, offset: nat)
    requires Increasing(table)
    ensures Nearest(table, offset).None? <==> forall i :: 0 <= i < |table| ==> table[i].address > offset
    ensures Nearest(table, offset).Some? ==>
              var s := Nearest(table, offset).value;
              s in table && s.address <= offset
              && forall i :: 0 <= i < |table| && table[i].address <= offset ==> table[i].address <= s.address
  {
    if table != [] && table[|table| - 1].address > offset {
      NearestIsGreatest(table[..|table| - 1], offset);
    }
  }

  /** The usable symbol of the file with the greatest address at or below the offset, the first one of
      several: no table, no sorting. */
  function NearestIn(file: seq<ElfSymbol>, offset: nat): Option<Symbol> {
    if file == [] then None
    else
      var best, s := NearestIn(file[..|file| - 1], offset), file[|file| - 1];
      if Usable(s) && s.address <= offset && (best.None? || s.address > best.value.address)
      then Some(Symbol(s.address, s.size, s.name.value)) else best
  }

  lemma {:induction false} NearestInIs(file: seq<ElfSymbol>, offset: nat)
    ensures var r := NearestIn(file, offset);
            && (r.Some? ==> r.value.address <= offset && FirstAt(file, r.value.address) == r)
            && forall a: nat :: a <= offset && FirstAt(file, a).Some? ==> r.Some? && a <= r.value.address
  {
    if file != [] {
      var before, s := file[..|file| - 1], file[|file| - 1];
      NearestInIs(before, offset);
      assert file == before + [s];
      var r := NearestIn(file, offset);
      if r.Some? {
        FirstAtSnoc(before, s, r.value.address);
      }
      forall a: nat | a <= offset && FirstAt(file, a).Some? ensures r.Some? && a <= r.value.address {
        FirstAtSnoc(before, s, a);
      }
    }
  }

  lemma {:induction false} HeadOfIncreasing(table: seq<Symbol>, i: nat)
    requires Increasing(table) && i < |table|
    ensures Head(table, table[i].address) == Some(table[i])
  {
    if i > 0 {
      HeadOfIncreasing(table[1..], i - 1);
    }
  }

  lemma HeadIsPresent(table: seq<Symbol>, a: nat)
    requires Head(table, a).Some?
    ensures exists i :: 0 <= i < |table| && table[i].address == a
  {
    MatchingNone(table, Address(), a);
    var i :| 0 <= i < |table| && Address()(table[i]) == a;
    assert table[i].address == a;
  }

  /** Looking up in the sorted table is looking through the file. */
  lemma TableAnswersForFile(table: seq<Symbol>, file: seq<ElfSymbol>, offset: nat)
    requires Increasing(table) && FirstOfFile(table, file)
    ensures Nearest(table, offset) == NearestIn(file, offset)
  {
    NearestIsGreatest(table, offset);
    NearestInIs(file, offset);
    var near, best := Nearest(table, offset), NearestIn(file, offset);
    if near.Some? {
      var i :| 0 <= i < |table| && table[i] == near.value;
      HeadOfIncreasing(table, i);
      assert FirstAt(file, near.value.address) == near;
    }
    if best.Some? {
      assert Head(table, best.value.address) == best;
      HeadIsPresent(table, best.value.address);
    }
  }

  /** The end test means that the symbol covers the offset, except for a symbol that reaches past the
      last 64-bit address: that one covers nothing but its own start. */
  lemma CoversIff(s: Symbol, offset: nat)
    requires s.address < offset && s.address < U64 && s.size < U64
    ensures offset < Wrap64(s.address + s.size) <==> offset < s.address + s.size < U64
  {
    assert s.address + s.size >= U64 ==> Wrap64(s.address + s.size) == s.address + s.size - U64;
  }

  /** The last byte of the address space lies in this symbol, and is reported as unknown. */
  lemma WrapExample()
    ensures var s := Symbol(U64 - 4, 8, "f");
            s.address < U64 - 1 < s.address + s.size && NameOf(Nearest([s], U64 - 1), U64 - 1) == None
  {
    var s := Symbol(U64 - 4, 8, "f");
    CoversIff(s, U64 - 1);
    assert Nearest([s], U64 - 1) == Some(s);
  }
}
