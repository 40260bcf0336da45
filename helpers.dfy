/** `clean_function_name` (src/utils/helpers.py), also written inline by the diagram renderer. */
module Helpers {
  import opened Text

  function CleanChar(c: char): char {
    if IsWordChar(c) then c else '_'
  }

  /**
   * `re.sub(r'[^a-zA-Z0-9_]', '_', name)`: every character outside the identifier class
   * becomes an underscore, every other one stays where it is.
   */
  function CleanFunctionName(name: string): (r: string)
    ensures |r| == |name|
    ensures forall i :: 0 <= i < |r| ==> IsWordChar(r[i])
    ensures forall i :: 0 <= i < |name| && IsWordChar(name[i]) ==> r[i] == name[i]
    ensures forall i :: 0 <= i < |name| && !IsWordChar(name[i]) ==> r[i] == '_'
  {
    seq(|name|, i requires 0 <= i < |name| => CleanChar(name[i]))
  }

  /** A name made of identifier characters only is left as it is. */
  lemma CleanKeepsIdentifiers(name: string)
    requires forall i :: 0 <= i < |name| ==> IsWordChar(name[i])
    ensures CleanFunctionName(name) == name
  {
  }

  /** Cleaning twice gives what cleaning once gives. */
  lemma CleanIdempotent(name: string)
    ensures CleanFunctionName(CleanFunctionName(name)) == CleanFunctionName(name)
  {
    CleanKeepsIdentifiers(CleanFunctionName(name));
  }
}
