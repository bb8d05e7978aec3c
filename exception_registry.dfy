/**
 * `ExceptionRegistry`: maps exception classes to HTTP metadata. The
 * constructor merges a list of mappings with `dict.update`, so a later
 * mapping overrides an earlier one; `get_metadata` walks the exception's
 * method resolution order (the class itself first) and returns the first
 * class's metadata.
 */
module ExceptionRegistry {
  import opened Wrappers

  datatype ExceptionMetadata = ExceptionMetadata(statusCode: int, errorCode: string)

  /** The merged mapping: `mappings` folded left to right, later keys winning. */
  function Merge<K(==)>(mappings: seq<map<K, ExceptionMetadata>>): map<K, ExceptionMetadata> {
    if mappings == [] then map[]
    else Merge(mappings[..|mappings| - 1]) + mappings[|mappings| - 1]
  }

  /** A class is mapped in the merge exactly when some mapping has it. */
  lemma {:induction false} MergeDomain<K>(mappings: seq<map<K, ExceptionMetadata>>, k: K)
    ensures k in Merge(mappings) <==> exists i :: 0 <= i < |mappings| && k in mappings[i]
  {
    if mappings != [] {
      var init := mappings[..|mappings| - 1];
      MergeDomain(init, k);
      assert forall i :: 0 <= i < |init| ==> init[i] == mappings[i];
    }
  }

  /** The last mapping that has a class decides its metadata: later dicts override earlier ones. */
  lemma {:induction false} MergeLastWins<K>(mappings: seq<map<K, ExceptionMetadata>>, k: K, i: nat)
    requires i < |mappings| && k in mappings[i]
    requires forall j :: i < j < |mappings| ==> k !in mappings[j]
    ensures k in Merge(mappings) && Merge(mappings)[k] == mappings[i][k]
  {
    if i < |mappings| - 1 {
      var init := mappings[..|mappings| - 1];
      assert forall j :: i < j < |init| ==> init[j] == mappings[j];
      MergeLastWins(init, k, i);
    }
  }

  /** The first class of `mro` that `mappings` covers, or `None`. */
  function FirstMapped<K(==)>(mro: seq<K>, mappings: map<K, ExceptionMetadata>): (r: Option<ExceptionMetadata>)
    ensures r.None? <==> forall i :: 0 <= i < |mro| ==> mro[i] !in mappings
    ensures r.Some? ==> exists i :: 0 <= i < |mro| && mro[i] in mappings && mappings[mro[i]] == r.value
                          && forall j :: 0 <= j < i ==> mro[j] !in mappings
  {
    if mro == [] then None
    else if mro[0] in mappings then Some(mappings[mro[0]])
    else
      var r := FirstMapped(mro[1..], mappings);
      assert forall i :: 0 <= i < |mro| - 1 ==> mro[1..][i] == mro[i + 1];
      if r.Some? then
        var i :| 0 <= i < |mro| - 1 && mro[1..][i] in mappings && mappings[mro[1..][i]] == r.value
                 && forall j :: 0 <= j < i ==> mro[1..][j] !in mappings;
        assert mro[i + 1] in mappings && mappings[mro[i + 1]] == r.value;
        r
      else r
  }

  class Registry<K(==)> {
    var mappings: map<K, ExceptionMetadata>

    /** Merges `mappingsList` in order; `None` or `[]` gives an empty registry. */
    constructor (mappingsList: Option<seq<map<K, ExceptionMetadata>>>)
      ensures mappings == Merge(if mappingsList.Some? then mappingsList.value else [])
    {
      mappings := map[];
      new;
      if mappingsList.Some? && mappingsList.value != [] {
        var list := mappingsList.value;
        var i := 0;
        while i < |list|
          invariant 0 <= i <= |list|
          invariant mappings == Merge(list[..i])
        {
          assert list[..i + 1][..i] == list[..i];
          mappings := mappings + list[i];
          i := i + 1;
        }
        assert list[..i] == list;
      }
    }

    /** `get_metadata` for an exception whose class has method resolution order `mro`. */
    function GetMetadata(mro: seq<K>): (r: Option<ExceptionMetadata>)
      reads this
      ensures |mro| > 0 && mro[0] in mappings ==> r == Some(mappings[mro[0]])
      ensures r.None? <==> forall i :: 0 <= i < |mro| ==> mro[i] !in mappings
    {
      FirstMapped(mro, mappings)
    }
  }

  /** An empty registry maps nothing. */
  lemma EmptyRegistryMapsNothing<K>(mro: seq<K>)
    ensures FirstMapped(mro, Merge<K>([])) == None
  {
  }
}
