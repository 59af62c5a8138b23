/** The browser storage wrapper: `localStorage` when it works, an in-memory map
    otherwise. Every call into `localStorage` may throw (private browsing, a full
    quota); whether it does is a parameter `throws` of each operation. */
module Storage {
  import opened Optional

  /** `available` is fixed when the wrapper is built; `local` is `localStorage`. */
  datatype Store = Store(available: bool, local: map<string, string>, memory: map<string, string>)

  /** The constructor: the probe writes and removes a test key; if either throws,
      the wrapper falls back to memory for good. */
  function Create(local: map<string, string>, probeThrows: bool): (r: Store)
    ensures r.available <==> !probeThrows
    ensures r.local == local && r.memory == map[]
  {
    Store(!probeThrows, local, map[])
  }

  /** `map.get(key) || null`: a missing key and the empty text both read as null. */
  function MemoryGet(memory: map<string, string>, key: string): (r: Option<string>)
    ensures r.Some? <==> key in memory && memory[key] != ""
    ensures r.Some? ==> r.value == memory[key]
  {
    if key in memory && memory[key] != "" then Some(memory[key]) else None
  }

  /** `getItem`. */
  function GetItem(s: Store, key: string, throws: bool): (r: Option<string>)
    ensures s.available && !throws ==> (r.Some? <==> key in s.local) && (r.Some? ==> r.value == s.local[key])
    ensures !s.available || throws ==> r == MemoryGet(s.memory, key)
  {
    if s.available && !throws then (if key in s.local then Some(s.local[key]) else None)
    else MemoryGet(s.memory, key)
  }

  /** `setItem`: the memory copy is written whatever happens. */
  function SetItem(s: Store, key: string, value: string, throws: bool): (r: Store)
    ensures r.available == s.available
    ensures r.memory == s.memory[key := value]
    ensures s.available && !throws ==> r.local == s.local[key := value]
    ensures !s.available || throws ==> r.local == s.local
  {
    if s.available && !throws then s.(local := s.local[key := value], memory := s.memory[key := value])
    else s.(memory := s.memory[key := value])
  }

  /** `removeItem`: the memory copy is removed whatever happens. */
  function RemoveItem(s: Store, key: string, throws: bool): (r: Store)
    ensures r.available == s.available
    ensures r.memory == s.memory - {key}
    ensures s.available && !throws ==> r.local == s.local - {key}
    ensures !s.available || throws ==> r.local == s.local
  {
    if s.available && !throws then s.(local := s.local - {key}, memory := s.memory - {key})
    else s.(memory := s.memory - {key})
  }

  /** `clear`: memory is emptied whatever happens. */
  function Clear(s: Store, throws: bool): (r: Store)
    ensures r.available == s.available && r.memory == map[]
    ensures s.available && !throws ==> r.local == map[]
    ensures !s.available || throws ==> r.local == s.local
  {
    if s.available && !throws then s.(local := map[], memory := map[]) else s.(memory := map[])
  }

  /** `keys`, as a set: the order of `Object.keys` is not modelled. */
  function Keys(s: Store, throws: bool): (r: set<string>)
    ensures s.available && !throws ==> r == s.local.Keys
    ensures !s.available || throws ==> r == s.memory.Keys
  {
    if s.available && !throws then s.local.Keys else s.memory.Keys
  }

  /** A value that was written can be read back, except that the memory fallback
      reads the empty text as null. A write that threw, read from a working
      `localStorage`, shows the value from before. */
  lemma SetThenGet(s: Store, key: string, value: string, setThrows: bool, getThrows: bool)
    ensures var r := GetItem(SetItem(s, key, value, setThrows), key, getThrows);
            && (s.available && !setThrows && !getThrows ==> r == Some(value))
            && (!s.available || getThrows ==> r == (if value == "" then None else Some(value)))
            && (s.available && setThrows && !getThrows ==> r == GetItem(s, key, false))
  {
  }

  /** After a remove the key reads as null, unless the remove threw while the later
      read reaches `localStorage`. */
  lemma RemoveThenGet(s: Store, key: string, removeThrows: bool, getThrows: bool)
    requires !(s.available && removeThrows && !getThrows)
    ensures GetItem(RemoveItem(s, key, removeThrows), key, getThrows) == None
  {
  }

  /** Writing one key leaves every other key as it reads. */
  lemma SetLeavesOthers(s: Store, key: string, other: string, value: string, setThrows: bool, getThrows: bool)
    requires other != key
    ensures GetItem(SetItem(s, key, value, setThrows), other, getThrows) == GetItem(s, other, getThrows)
  {
  }

  /** After a clear no key reads as anything, on the same conditions as a remove. */
  lemma ClearThenGet(s: Store, key: string, clearThrows: bool, getThrows: bool)
    requires !(s.available && clearThrows && !getThrows)
    ensures GetItem(Clear(s, clearThrows), key, getThrows) == None
    ensures Keys(Clear(s, clearThrows), getThrows) == {}
  {
  }
}
