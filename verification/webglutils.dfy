/** `webGLUtils.guessNumComponentsFromName(name, length)`: how many
    components each vertex of an attribute array has, guessed from the
    attribute's name. A name mentioning `coord` gets 2, one mentioning
    `color` gets 4, any other 3; a length the guess does not divide is
    refused with the thrown string `'Can not guess numComponents'`. */
module WebGLUtils {
  import opened Wrappers

  /** The string the library throws when the guess does not divide the length. */
  const CannotGuess: string := "Can not guess numComponents"

  /** `part` occurs in `s` starting at index `i`. */
  predicate OccursAt(s: string, part: string, i: nat)
  {
    i + |part| <= |s| && s[i..i + |part|] == part
  }

  /** `part` occurs somewhere in `s`: the meaning of `s.includes(part)`. */
  ghost predicate Occurs(s: string, part: string)
  {
    exists i: nat :: OccursAt(s, part, i)
  }

  /** `s.includes(part)`, computed by trying each start position in turn. */
  function Includes(s: string, part: string): (r: bool)
    decreases |s|
  {
    if |s| < |part| then false
    else if s[..|part|] == part then true
    else Includes(s[1..], part)
  }

  /** The search in `Includes` finds `part` exactly when it occurs. */
  lemma {:induction false} IncludesOccurs(s: string, part: string)
    ensures Includes(s, part) <==> Occurs(s, part)
    decreases |s|
  {
    if |s| < |part| {
      assert !Occurs(s, part);
    } else if s[..|part|] == part {
      assert OccursAt(s, part, 0);
    } else {
      IncludesOccurs(s[1..], part);
      if Occurs(s[1..], part) {
        var i: nat :| OccursAt(s[1..], part, i);
        assert s[1..][i..i + |part|] == s[i + 1..i + 1 + |part|];
        assert OccursAt(s, part, i + 1);
      }
      if Occurs(s, part) {
        var i: nat :| OccursAt(s, part, i);
        assert i != 0;
        assert s[1..][i - 1..i - 1 + |part|] == s[i..i + |part|];
        assert OccursAt(s[1..], part, i - 1);
      }
    }
  }

  /** The number of components the name suggests. */
  function NameComponents(name: string): nat
  {
    if Includes(name, "coord") then 2
    else if Includes(name, "color") then 4
    else 3
  }

  /** `guessNumComponentsFromName(name, length)`; `length` is an array
      length, so never negative. */
  function GuessNumComponentsFromName(name: string, length: nat): (r: Result<nat, string>)
    ensures r.Success? ==> r.value in {2, 3, 4} && length % r.value == 0
    ensures r.Failure? ==> r.error == CannotGuess
  {
    var n := NameComponents(name);
    if length % n != 0 then Failure(CannotGuess) else Success(n)
  }

  /** The guess stated with substring occurrence instead of the search:
      `coord` wins over `color`, and the guess is returned exactly when it
      divides the length. */
  lemma GuessFromOccurrences(name: string, length: nat)
    ensures Occurs(name, "coord")
         ==> GuessNumComponentsFromName(name, length) == (if length % 2 == 0 then Success(2) else Failure(CannotGuess))
    ensures !Occurs(name, "coord") && Occurs(name, "color")
         ==> GuessNumComponentsFromName(name, length) == (if length % 4 == 0 then Success(4) else Failure(CannotGuess))
    ensures !Occurs(name, "coord") && !Occurs(name, "color")
         ==> GuessNumComponentsFromName(name, length) == (if length % 3 == 0 then Success(3) else Failure(CannotGuess))
  {
    IncludesOccurs(name, "coord");
    IncludesOccurs(name, "color");
  }

  /** A success reports a component count that splits the array into whole
      vertices: `length` is that many components times the vertex count. */
  lemma GuessSplitsLength(name: string, length: nat)
    requires GuessNumComponentsFromName(name, length).Success?
    ensures var n := GuessNumComponentsFromName(name, length).value;
            n > 0 && length == n * (length / n)
  {
  }
}
