/**
 * Shared vocabulary of the connection finder: artist identifiers are plain
 * strings (the `ArtistID` alias of src/custom_types.py), an artist is the
 * pair of its identifier and display name, and a few sequence helpers that
 * both the cache and the search use.
 */
module Types {

  /** A metadata-provider artist identifier. */
  type ArtistID = string

  /** The two attributes of a provider artist object that the core reads. */
  datatype Artist = Artist(id: ArtistID, name: string)

  /** Python's `None`-or-value return. */
  datatype Option<+T> = None | Some(value: T)

  /** Python's `s[::-1]` and `list.reverse()`. */
  function Reversed<T>(s: seq<T>): (r: seq<T>)
  {
    seq(|s|, i requires 0 <= i < |s| => s[|s| - 1 - i])
  }

  /** Appending the next element of `s` extends the prefix taken so far by one. */
  lemma AppendNext<T>(front: seq<T>, s: seq<T>, i: nat)
    requires i < |s|
    ensures front + s[..i] + [s[i]] == front + s[..i + 1]
  {
    assert s[..i + 1] == s[..i] + [s[i]];
  }

  /** Reversing twice gives back the original sequence. */
  lemma ReversedTwice<T>(s: seq<T>)
    ensures Reversed(Reversed(s)) == s
  {
    assert forall i :: 0 <= i < |s| ==> Reversed(Reversed(s))[i] == s[i];
  }
}
