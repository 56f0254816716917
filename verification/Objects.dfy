/** The in-process object store. */
module Objects {
  import opened Options

  class MemoryStore {
    var objects: map<string, seq<bv8>>

    constructor ()
      ensures objects == map[]
    {
      objects := map[];
    }

    /** Refuses an empty key and a declared size that is not the size of the data; a negative size declares nothing. */
    method Put(key: string, data: seq<bv8>, size: int) returns (ok: bool)
      modifies this
      ensures ok <==> key != "" && (size < 0 || |data| == size)
      ensures objects == if ok then old(objects)[key := data] else old(objects)
    {
      if key == "" {
        return false;
      }
      if size >= 0 && |data| != size {
        return false;
      }
      objects := objects[key := data];
      return true;
    }

    method Get(key: string) returns (r: Option<seq<bv8>>)
      ensures r == if key in objects then Some(objects[key]) else None
    {
      if key !in objects {
        return None;
      }
      return Some(objects[key]);
    }

    /** Deleting an absent key is a success; a failing backend gives up after `stop` keys. */
    method Delete(keys: set<string>, stop: nat) returns (ok: bool, left: set<string>)
      modifies this
      ensures left <= keys
      ensures ok <==> left == {}
      ensures ok <==> |keys| <= stop
      ensures objects == old(objects) - (keys - left)
    {
      left := keys;
      var n := 0;
      while left != {} && n < stop
        invariant left <= keys && n <= stop && n + |left| == |keys|
        invariant objects == old(objects) - (keys - left)
        decreases left
      {
        var k :| k in left;
        objects := objects - {k};
        left := left - {k};
        n := n + 1;
      }
      ok := left == {};
    }
  }
}
