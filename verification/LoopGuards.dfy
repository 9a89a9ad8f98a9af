/** src/api/chat.py: the bounded cache of loop guards, one per conversation. Guards are told apart by the
    number of guards made before them. */
module LoopGuards {
  import opened Options

  const GUARDS_MAX := 256

  datatype Entry = Entry(key: string, guard: nat)

  /** `cache` is the dict in insertion order; `misses` are the keys looked up in vain, each of which made
      a guard. */
  datatype State = State(cache: seq<Entry>, misses: seq<string>)

  const START := State([], [])

  /** dict.get */
  function Find(cache: seq<Entry>, key: string): (guard: Option<nat>)
    ensures guard.Some? ==> Entry(key, guard.value) in cache
    ensures guard == None ==> forall i :: 0 <= i < |cache| ==> cache[i].key != key
  {
    if |cache| == 0 then None
    else
      var last := cache[|cache| - 1];
      if last.key == key then Some(last.guard) else Find(cache[..|cache| - 1], key)
  }

  function LastEntries(cache: seq<Entry>, n: nat): seq<Entry> {
    if |cache| <= n then cache else cache[|cache| - n..]
  }

  /** One lookup. */
  function Next(s: State, key: string): State {
    if Find(s.cache, key).Some? then s
    else State(LastEntries(s.cache, GUARDS_MAX - 1) + [Entry(key, |s.misses|)], s.misses + [key])
  }

  /** The guard a lookup returns. */
  function Guard(s: State, key: string): nat {
    var found := Find(s.cache, key);
    if found.Some? then found.value else |s.misses|
  }

  /** A key in the cache is found there, and nothing changes; any other gets a new guard at the end, behind
      what is left of the cache when it is cut to 255 entries. */
  lemma LookupOnFields(s: State, key: string)
    ensures (exists e :: e in s.cache && e.key == key) ==> Next(s, key) == s && Entry(key, Guard(s, key)) in s.cache
    ensures (forall e :: e in s.cache ==> e.key != key) ==>
              var kept := if |s.cache| < 256 then s.cache else s.cache[|s.cache| - 255..];
              Guard(s, key) == |s.misses| && Next(s, key) == State(kept + [Entry(key, |s.misses|)], s.misses + [key])
  {
  }

  function Exec(s: State, keys: seq<string>): State {
    if |keys| == 0 then s else Next(Exec(s, keys[..|keys| - 1]), keys[|keys| - 1])
  }

  function Run(keys: seq<string>): State {
    Exec(START, keys)
  }

  // ----- What the cache holds -----

  /** The keys of the last misses, at most 256 of them, in the order they were inserted, each with the
      guard made then. */
  function Window(misses: seq<string>): seq<Entry> {
    var from := if |misses| <= GUARDS_MAX then 0 else |misses| - GUARDS_MAX;
    seq(|misses| - from, i requires 0 <= i < |misses| - from => Entry(misses[from + i], from + i))
  }

  predicate DistinctKeys(cache: seq<Entry>) {
    forall i, j :: 0 <= i < j < |cache| ==> cache[i].key != cache[j].key
  }

  predicate CacheInv(s: State) {
    s.cache == Window(s.misses) && DistinctKeys(s.cache)
  }

  lemma NextKeepsInv(s: State, key: string)
    requires CacheInv(s)
    ensures CacheInv(Next(s, key)) && s.misses <= Next(s, key).misses
  {
    if Find(s.cache, key) == None {
      assert Next(s, key).cache == Window(s.misses + [key]);
    }
  }

  /** Whatever is looked up, the cache holds exactly the most recently inserted keys, in order, and never
      more than 256. */
  lemma {:induction false} CacheHoldsLastMisses(keys: seq<string>)
    ensures CacheInv(Run(keys)) && |Run(keys).cache| <= 256
  {
    if |keys| == 0 {
    } else {
      CacheHoldsLastMisses(keys[..|keys| - 1]);
      NextKeepsInv(Run(keys[..|keys| - 1]), keys[|keys| - 1]);
    }
  }

  lemma {:induction false} ExecKeepsInv(s: State, keys: seq<string>)
    requires CacheInv(s)
    ensures CacheInv(Exec(s, keys)) && s.misses <= Exec(s, keys).misses
  {
    if |keys| == 0 {
    } else {
      ExecKeepsInv(s, keys[..|keys| - 1]);
      NextKeepsInv(Exec(s, keys[..|keys| - 1]), keys[|keys| - 1]);
    }
  }

  lemma FindUnique(cache: seq<Entry>, key: string, i: nat)
    requires DistinctKeys(cache) && i < |cache| && cache[i].key == key
    ensures Find(cache, key) == Some(cache[i].guard)
  {
  }

  /** The guard made at miss number g for its key is the one a lookup returns exactly while fewer than
      256 misses have come after that one. */
  lemma GuardStaysIff(s: State, key: string, g: nat)
    requires CacheInv(s) && g < |s.misses| && s.misses[g] == key
    ensures Guard(s, key) == g <==> |s.misses| - (g + 1) < 256
  {
    var from := if |s.misses| <= GUARDS_MAX then 0 else |s.misses| - GUARDS_MAX;
    if g >= from {
      FindUnique(s.cache, key, g - from);
    }
  }

  lemma GuardIsOfKey(s: State, key: string)
    requires CacheInv(s)
    ensures Guard(s, key) < |Next(s, key).misses| && Next(s, key).misses[Guard(s, key)] == key
  {
  }

  /** Two lookups of a key, with any lookups before and between: they get the same instance exactly when
      fewer than 256 misses have come since that instance was made. Hits in between do not matter, not
      even hits of the key itself. */
  lemma SameInstanceIff(keys: seq<string>, key: string, between: seq<string>)
    ensures var first := Next(Run(keys), key);
            var g := Guard(Run(keys), key);
            var second := Exec(first, between);
            && g < |first.misses| <= |second.misses|
            && (Guard(second, key) == g <==> |second.misses| - (g + 1) < 256)
  {
    CacheHoldsLastMisses(keys);
    var s := Run(keys);
    NextKeepsInv(s, key);
    GuardIsOfKey(s, key);
    ExecKeepsInv(Next(s, key), between);
    GuardStaysIff(Exec(Next(s, key), between), key, Guard(s, key));
  }

  // ----- The code -----

  class ChatLoopGuards {
    var cache: seq<Entry>
    var misses: seq<string>  // history

    ghost function Snapshot(): State
      reads this
    {
      State(cache, misses)
    }

    constructor ()
      ensures Snapshot() == START
    {
      cache, misses := [], [];
    }

    /** _get_chat_loop_guard */
    method GetChatLoopGuard(key: string) returns (guard: nat)
      modifies this
      ensures Snapshot() == Next(old(Snapshot()), key) && guard == Guard(old(Snapshot()), key)
    {
      var found := Find(cache, key);
      if found.Some? {
        return found.value;
      }
      while |cache| >= GUARDS_MAX
        invariant |cache| >= GUARDS_MAX - 1 || cache == old(cache)
        invariant |cache| <= |old(cache)| && cache == old(cache)[|old(cache)| - |cache|..]
        invariant misses == old(misses)
        decreases |cache|
      {
        cache := cache[1..];
      }
      guard := |misses|;
      misses := misses + [key];
      cache := cache + [Entry(key, guard)];
    }
  }
}
