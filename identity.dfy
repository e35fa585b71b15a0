/**
 * The client's persisted identity (`getUUID`): read from the browser's
 * local storage, generated and stored when absent or empty.
 */
module Identity {

  /** The local-storage key under which the identity is kept. */
  const UuidKey := "pubnub_uuid"

  /** The browser's key/value local storage, updated in place. */
  class LocalStorage {
    var items: map<string, string>

    constructor (items: map<string, string>)
      ensures this.items == items
    {
      this.items := items;
    }
  }

  /** The identity currently stored, when it is truthy. */
  function Stored(items: map<string, string>): (r: string)
    ensures r != "" <==> (UuidKey in items && items[UuidKey] != "")
    ensures r != "" ==> r == items[UuidKey]
  {
    if UuidKey in items then items[UuidKey] else ""
  }

  /**
   * Get-or-create. `generated` is what the transport library's UUID
   * generator returns on this call; a UUID is never empty.
   */
  method GetUUID(storage: LocalStorage, generated: string) returns (uuid: string)
    requires generated != ""
    modifies storage
    ensures uuid != "" && uuid == Stored(storage.items)
    ensures Stored(old(storage.items)) != "" ==>
              uuid == Stored(old(storage.items)) && storage.items == old(storage.items)
    ensures Stored(old(storage.items)) == "" ==>
              uuid == generated && storage.items == old(storage.items)[UuidKey := generated]
  {
    uuid := if UuidKey in storage.items then storage.items[UuidKey] else "";
    if uuid == "" {
      uuid := generated;
      storage.items := storage.items[UuidKey := uuid];
    }
  }
}
