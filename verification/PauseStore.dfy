/**
 * The compare-and-set key store a pause lives in
 * (packages/assistant-kit/src/testing.ts, packages/assistant-kit/src/ports.ts).
 *
 * A key holds a pause record, a turn token, or bytes that no longer parse.
 */
module PauseStore {
  import opened Wrappers

  datatype Status = Open | Claimed | Answered | Cancelled | Expired

  datatype Record = Record(
    kind: string, bind: string, interactionId: nat, revision: nat, conversation: string,
    status: Status, continuation: string, prompt: string, secret: string, expiresAt: int)

  datatype Raw = Encoded(record: Record) | Token(token: nat) | Unreadable(bytes: string)

  datatype Key = PauseKey(conversation: string) | TurnKey(conversation: string)

  type Entries = map<Key, Raw>

  function Get(entries: Entries, key: Key): Option<Raw> {
    if key in entries then Some(entries[key]) else None
  }

  predicate Holds(entries: Entries, key: Key, value: Raw) {
    key in entries && entries[key] == value
  }

  /** Whether a write is accepted: set-if-absent when nothing is expected, else compare-and-set. */
  predicate Takes(entries: Entries, key: Key, expected: Option<Raw>) {
    if expected.None? then key !in entries else Holds(entries, key, expected.value)
  }

  class MemoryPauseStore {
    var entries: Entries

    constructor ()
      ensures entries == map[]
    {
      entries := map[];
    }

    method Read(key: Key) returns (raw: Option<Raw>)
      ensures raw == Get(entries, key)
    {
      raw := if key in entries then Some(entries[key]) else None;
    }

    /** Fills a free key; a key in use stays as it is and the caller is told so. */
    method SetIfAbsent(key: Key, value: Raw) returns (stored: bool)
      modifies this
      ensures stored <==> Takes(old(entries), key, None)
      ensures entries == if stored then old(entries)[key := value] else old(entries)
    {
      if key in entries {
        return false;
      }
      entries := entries[key := value];
      stored := true;
    }

    /** Replaces exactly the value a caller has read, so of several that read it one at most succeeds. */
    method CompareAndSet(key: Key, expected: Raw, next: Raw) returns (stored: bool)
      modifies this
      ensures stored <==> Takes(old(entries), key, Some(expected))
      ensures entries == if stored then old(entries)[key := next] else old(entries)
    {
      if key !in entries || entries[key] != expected {
        return false;
      }
      entries := entries[key := next];
      stored := true;
    }

    /** Frees a key only from the value the caller put there. */
    method DeleteIfEquals(key: Key, expected: Raw) returns (deleted: bool)
      modifies this
      ensures deleted <==> Holds(old(entries), key, expected)
      ensures entries == if deleted then old(entries) - {key} else old(entries)
    {
      if key !in entries || entries[key] != expected {
        return false;
      }
      entries := entries - {key};
      deleted := true;
    }
  }
}
