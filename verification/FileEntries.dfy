/** Shared files as every part of the daemon knows them. */
module FileEntries {
  import opened KeyMaps

  datatype File = File(size: nat, extension: Text, attributes: seq<nat>)
}
