/**
 * What the model assumes of the JSON encoder (github.com/clarketm/json):
 * the struct-tag rule that decides which wire keys a record emits, and the
 * shape of a call to Marshal, whose workings are not part of this model.
 */
module JsonTags {

  /** One struct field as its tag declares it: the wire key, whether the tag
      says `omitempty`, and whether the field holds its type's zero value. */
  datatype Field = Field(key: string, omitEmpty: bool, isZero: bool)

  /** A field is written unless its tag says `omitempty` and it is zero. */
  predicate Kept(f: Field)
  {
    !f.omitEmpty || !f.isZero
  }

  /** The set of wire keys a record with these tagged fields emits. The keys
      are expected to be distinct, as they are in every record of this model:
      for two fields with one name at the same depth the encoder writes
      neither, which this function does not capture. */
  function Emitted(fields: seq<Field>): (keys: set<string>)
    ensures forall k :: k in keys <==>
      exists i :: 0 <= i < |fields| && fields[i].key == k && Kept(fields[i])
  {
    if fields == [] then {}
    else
      var rest := Emitted(fields[1..]);
      assert forall i :: 1 <= i < |fields| ==> fields[i] == fields[1..][i - 1];
      (if Kept(fields[0]) then {fields[0].key} else {}) + rest
  }

  /** The result of json.Marshal: the encoded text, or the encoder's error. */
  datatype Encoding = Encoded(text: string) | EncodeError(reason: string)
}
