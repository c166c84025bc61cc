/** The null-field sanitizer of warehouse-app/src/utils.js. */
module Utils {
  import opened Js

  /** A request argument: a plain object passed by reference, which a callee may change. */
  class Dto {
    var fields: Record

    constructor (fields: Record)
      ensures this.fields == fields
    {
      this.fields := fields;
    }
  }

  /** The fields of `m` whose value is exactly `null`. */
  function NullFields(m: Record): set<string>
  {
    set k | k in m && m[k] == Null
  }

  predicate NullFree(m: Record)
  {
    forall k :: k in m ==> m[k] != Null
  }

  /** What sanitizing leaves of `m`: no field is null, exactly the null fields
      are gone, and every other field (an `undefined` one included) keeps its value. */
  function WithoutNulls(m: Record): (r: Record)
    ensures NullFree(r)
    ensures r.Keys == m.Keys - NullFields(m)
    ensures forall k :: k in r ==> r[k] == m[k]
  {
    map k | k in m && m[k] != Null :: m[k]
  }

  /** Sanitizing twice gives what sanitizing once gives. */
  lemma WithoutNullsIdempotent(m: Record)
    ensures WithoutNulls(WithoutNulls(m)) == WithoutNulls(m)
  {
  }

  /** Sanitizing leaves a record unchanged exactly when it has no null field. */
  lemma WithoutNullsUnchangedIff(m: Record)
    ensures WithoutNulls(m) == m <==> NullFree(m)
  {
    if NullFree(m) {
      assert WithoutNulls(m).Keys == m.Keys;
    }
  }

  /** `filterOutNullValues(dto)`: deletes in place every field of `dto` whose value
      is `null`, visiting the keys taken before the loop, and returns the same object. */
  method FilterOutNullValues(dto: Dto) returns (r: Dto)
    modifies dto
    ensures r == dto
    ensures dto.fields == WithoutNulls(old(dto.fields))
  {
    ghost var original := dto.fields;
    var pending := dto.fields.Keys;  // Object.keys(dto)
    while pending != {}
      invariant pending <= original.Keys
      invariant dto.fields == map k | k in original && (k in pending || original[k] != Null) :: original[k]
      decreases |pending|
    {
      var field :| field in pending;
      if dto.fields[field] == Null {
        dto.fields := dto.fields - {field};
      }
      pending := pending - {field};
    }
    r := dto;
  }
}
