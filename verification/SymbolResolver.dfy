/** Resolving an address of a process to a symbol name through three caches. */
module SymbolResolver {
  import opened Collections
  import opened Sums
  import opened SymbolTable

  /** An executable mapping of a process. */
  datatype Mapping = Mapping(start: nat, end: nat, offset: nat, path: string)

  /** What is on disk and in /proc: the mappings of each process and the symbols of each file (none for
      one that cannot be read or parsed). */
  datatype Image = Image(maps: nat -> seq<Mapping>, files: string -> seq<ElfSymbol>)

  datatype Answer = Unknown | UnknownAt(address: nat) | Named(name: string)

  /** The first mapping that holds an address. */
  function Find(maps: seq<Mapping>, address: nat): (r: Option<Mapping>)
    ensures r.Some? ==> r.value.start <= address < r.value.end
  {
    if maps == [] then None
    else if maps[0].start <= address < maps[0].end then Some(maps[0])
    else Find(maps[1..], address)
  }

  function Reported(name: Option<string>, offset: nat): Answer {
    if name.Some? then Named(name.value) else UnknownAt(offset)
  }

  /** The offset in its file of an address in a mapping, in 64 bits. */
  function FileOffset(m: Mapping, address: nat): nat
    requires m.start <= address
  {
    Wrap64(address - m.start + m.offset)
  }

  /** The answer for an offset of a file. */
  function AnswerIn(file: seq<ElfSymbol>, offset: nat): Answer {
    Reported(NameOf(NearestIn(file, offset), offset), offset)
  }

  /** The answer read off the image, without any cache, table or search. */
  function AnswerFor(image: Image, pid: nat, address: nat): Answer {
    if address == 0 then Unknown
    else match Find(image.maps(pid), address)
      case None => UnknownAt(address)
      case Some(m) => AnswerIn(image.files(m.path), FileOffset(m, address))
  }

  const ADDRESSES := 10000
  const PROCESSES := 256
  const LIBRARIES := 64

  /** Adds an entry to a cache of bounded size; a full one loses some other entry. */
  method Put<K(==), V>(cache: map<K, V>, capacity: nat, key: K, value: V) returns (r: map<K, V>)
    requires capacity > 0 && |cache| <= capacity
    ensures key in r && r[key] == value && |r| <= capacity
    ensures forall k :: k in r ==> k == key || (k in cache && r[k] == cache[k])
  {
    if key in cache {
      r := cache[key := value];
      FewerKeys(r, cache);
    } else {
      r := cache;
      if |r| == capacity {
        var victim :| victim in r;
        RemoveSize(r, {victim});
        r := r - {victim};
      }
      OneMore(r, key, value);
      r := r[key := value];
    }
  }

  ghost predicate AddressesHold(image: Image, addresses: map<(nat, nat), Answer>) {
    |addresses| <= ADDRESSES && forall k :: k in addresses ==> addresses[k] == AnswerFor(image, k.0, k.1)
  }

  ghost predicate LibrariesHold(image: Image, libraries: map<string, Option<seq<Symbol>>>) {
    |libraries| <= LIBRARIES + 1 && forall path :: path in libraries ==> TableOf(libraries[path], image.files(path))
  }

  lemma AddHolds(image: Image, libraries: map<string, Option<seq<Symbol>>>, path: string, table: Option<seq<Symbol>>)
    requires LibrariesHold(image, libraries) && |libraries| <= LIBRARIES && TableOf(table, image.files(path))
    ensures LibrariesHold(image, libraries[path := table])
  {
    OneMore(libraries, path, table);
  }

  ghost predicate MappingsHold(image: Image, mappings: map<nat, seq<Mapping>>) {
    |mappings| <= PROCESSES && forall pid :: pid in mappings ==> mappings[pid] == image.maps(pid)
  }

  function Without(addresses: map<(nat, nat), Answer>, pid: nat): map<(nat, nat), Answer> {
    map k | k in addresses && k.0 != pid :: addresses[k]
  }

  /** Nothing is cached about the processes. */
  ghost predicate Forgotten(addresses: map<(nat, nat), Answer>, mappings: map<nat, seq<Mapping>>, pids: seq<nat>) {
    (forall k :: k in addresses ==> k.0 !in pids) && (forall p :: p in mappings ==> p !in pids)
  }

  lemma ForgetHolds(image: Image, addresses: map<(nat, nat), Answer>, mappings: map<nat, seq<Mapping>>, pid: nat)
    requires AddressesHold(image, addresses) && MappingsHold(image, mappings)
    ensures AddressesHold(image, Without(addresses, pid)) && MappingsHold(image, mappings - {pid})
  {
    FewerKeys(Without(addresses, pid), addresses);
    FewerKeys(mappings - {pid}, mappings);
  }

  lemma ForgetOne(addresses: map<(nat, nat), Answer>, mappings: map<nat, seq<Mapping>>, pids: seq<nat>, i: nat)
    requires i < |pids| && Forgotten(addresses, mappings, pids[..i])
    ensures Forgotten(Without(addresses, pids[i]), mappings - {pids[i]}, pids[..i + 1])
  {
    assert pids[..i + 1] == pids[..i] + [pids[i]];
  }

  /** The image after some processes were replaced. */
  ghost predicate Replaced(image: Image, later: Image, pids: seq<nat>) {
    later.files == image.files && forall p: nat :: p !in pids ==> later.maps(p) == image.maps(p)
  }

  lemma HoldsForLater(image: Image, addresses: map<(nat, nat), Answer>, libraries: map<string, Option<seq<Symbol>>>,
                      mappings: map<nat, seq<Mapping>>, pids: seq<nat>)
    requires AddressesHold(image, addresses) && LibrariesHold(image, libraries) && MappingsHold(image, mappings)
    requires Forgotten(addresses, mappings, pids)
    ensures forall later: Image :: Replaced(image, later, pids) ==>
              AddressesHold(later, addresses) && LibrariesHold(later, libraries) && MappingsHold(later, mappings)
  {
    forall later: Image | Replaced(image, later, pids)
      ensures AddressesHold(later, addresses) && LibrariesHold(later, libraries) && MappingsHold(later, mappings)
    {
      HoldsLater(image, later, addresses, mappings);
    }
  }

  lemma HoldsLater(image: Image, later: Image, addresses: map<(nat, nat), Answer>, mappings: map<nat, seq<Mapping>>)
    requires AddressesHold(image, addresses) && MappingsHold(image, mappings) && later.files == image.files
    requires forall k :: k in addresses ==> later.maps(k.0) == image.maps(k.0)
    requires forall p :: p in mappings ==> later.maps(p) == image.maps(p)
    ensures AddressesHold(later, addresses) && MappingsHold(later, mappings)
  {
  }

  datatype Request = Resolve(pid: nat, address: nat) | EvictPids(pids: seq<nat>)

  /** What a sequence of requests must answer. */
  function Expected(image: Image, requests: seq<Request>): seq<Answer> {
    if requests == [] then []
    else
      var r := requests[|requests| - 1];
      Expected(image, requests[..|requests| - 1]) + if r.Resolve? then [AnswerFor(image, r.pid, r.address)] else []
  }

  class Resolver {
    var addresses: map<(nat, nat), Answer>
    var libraries: map<string, Option<seq<Symbol>>>
    var mappings: map<nat, seq<Mapping>>

    /** The caches are within bounds and hold nothing but what the image says. */
    ghost predicate Valid(image: Image)
      reads this
    {
      AddressesHold(image, addresses) && LibrariesHold(image, libraries) && MappingsHold(image, mappings)
    }

    constructor ()
      ensures forall image: Image :: Valid(image)
    {
      addresses, libraries, mappings := map[], map[], map[];
    }

    method LoadSymbols(image: Image, path: string) returns (table: Option<seq<Symbol>>)
      requires LibrariesHold(image, libraries)
      modifies this`libraries
      ensures LibrariesHold(image, libraries) && TableOf(table, image.files(path))
    {
      if path !in libraries {
        if |libraries| > LIBRARIES {
          libraries := map[];
        }
        var symbols := ParseElfSymbols(image.files(path));
        AddHolds(image, libraries, path, symbols);
        libraries := libraries[path := symbols];
      }
      table := libraries[path];
    }

    /** The name at an offset of a file, through its table. */
    method NameIn(image: Image, path: string, offset: nat) returns (r: Answer)
      requires LibrariesHold(image, libraries)
      modifies this`libraries
      ensures LibrariesHold(image, libraries) && r == AnswerIn(image.files(path), offset)
    {
      var symbols := LoadSymbols(image, path);
      if symbols.None? {
        NearestInIs(image.files(path), offset);
        return UnknownAt(offset);
      }
      TableAnswersForFile(symbols.value, image.files(path), offset);
      var name := FindSymbol(symbols.value, offset);
      return Reported(name, offset);
    }

    method LoadMaps(image: Image, pid: nat) returns (maps: seq<Mapping>)
      requires MappingsHold(image, mappings)
      modifies this`mappings
      ensures MappingsHold(image, mappings) && maps == image.maps(pid)
    {
      if pid !in mappings {
        mappings := Put(mappings, PROCESSES, pid, image.maps(pid));
      }
      maps := mappings[pid];
    }

    method ResolveUncached(image: Image, pid: nat, address: nat) returns (r: Answer)
      requires LibrariesHold(image, libraries) && MappingsHold(image, mappings) && address != 0
      modifies this`libraries, this`mappings
      ensures LibrariesHold(image, libraries) && MappingsHold(image, mappings)
      ensures r == AnswerFor(image, pid, address)
    {
      var maps := LoadMaps(image, pid);
      var entry := Find(maps, address);
      if entry.None? {
        return UnknownAt(address);
      }
      r := NameIn(image, entry.value.path, FileOffset(entry.value, address));
    }

    method Resolve(image: Image, pid: nat, address: nat) returns (r: Answer)
      requires Valid(image)
      modifies this
      ensures Valid(image) && r == AnswerFor(image, pid, address)
    {
      if address == 0 {
        return Unknown;
      }
      if (pid, address) in addresses {
        return addresses[(pid, address)];
      }
      r := ResolveUncached(image, pid, address);
      addresses := Put(addresses, ADDRESSES, (pid, address), r);
    }

    /** Nothing of the processes stays but the libraries, so they may come back with other mappings. */
    method EvictPids(image: Image, pids: seq<nat>)
      requires Valid(image)
      modifies this`addresses, this`mappings
      ensures Valid(image)
      ensures forall later: Image :: Replaced(image, later, pids) ==> Valid(later)
    {
      for i := 0 to |pids|
        invariant Valid(image)
        invariant Forgotten(addresses, mappings, pids[..i])
      {
        var pid := pids[i];
        ForgetHolds(image, addresses, mappings, pid);
        ForgetOne(addresses, mappings, pids, i);
        mappings := mappings - {pid};
        addresses := Without(addresses, pid);
      }
      assert pids[..|pids|] == pids;
      HoldsForLater(image, addresses, libraries, mappings, pids);
    }

    /** The resolver's queue: every answer is the one the image gives, whatever was asked, evicted or
        cleared before. */
    method Serve(image: Image, requests: seq<Request>) returns (answers: seq<Answer>)
      requires Valid(image)
      modifies this
      ensures Valid(image) && answers == Expected(image, requests)
    {
      answers := [];
      for i := 0 to |requests|
        invariant Valid(image) && answers == Expected(image, requests[..i])
      {
        assert requests[..i + 1][..i] == requests[..i];
        match requests[i] {
          case Resolve(pid, address) =>
            var r := Resolve(image, pid, address);
            answers := answers + [r];
          case EvictPids(pids) => EvictPids(image, pids);
        }
      }
      assert requests[..|requests|] == requests;
    }
  }
}
