/** Lines of a text. Only the newline matters here, so a character may as well stand for a byte. */
module Lines {
  import opened Text

  predicate IsLine(line: string) {
    '\n' !in line
  }

  /** Every line with its newline. */
  function Join(lines: seq<string>): string {
    if lines == [] then "" else lines[0] + "\n" + Join(lines[1..])
  }

  lemma {:induction false} FirstOfIs(text: string, c: char, i: nat)
    requires i <= |text| && (forall k :: 0 <= k < i ==> text[k] != c) && (i < |text| ==> text[i] == c)
    ensures FirstOf(text, c) == i
  {
  }
}
