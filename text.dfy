/** String helpers the application uses: `', '.join(...)` and the filter that
    drops combining marks (`remove_invalid_chars`). The Unicode category of a
    character comes from a database that is not part of this model, so the
    filter takes the "is category Mn" test as a parameter. */
module Text {

  /** Python's `sep.join(parts)`. */
  function Join(parts: seq<string>, sep: string): string
  {
    if |parts| == 0 then ""
    else if |parts| == 1 then parts[0]
    else parts[0] + sep + Join(parts[1..], sep)
  }

  /** `remove_invalid_chars`: every character of `text` except the
      non-spacing marks (category Mn), in their original order. */
  function RemoveInvalidChars(text: string, isMn: char -> bool): (r: string)
    ensures |r| <= |text|
    ensures forall i :: 0 <= i < |r| ==> !isMn(r[i]) && r[i] in text
    ensures forall i :: 0 <= i < |text| && !isMn(text[i]) ==> text[i] in r
  {
    if text == [] then []
    else
      var rest := RemoveInvalidChars(text[1..], isMn);
      if isMn(text[0]) then rest else [text[0]] + rest
  }

  /** The filter works character by character: filtering a concatenation
      is concatenating the filtered parts, so the order of what is kept is
      the original order. */
  lemma {:induction false} RemoveInvalidCharsAppend(a: string, b: string, isMn: char -> bool)
    ensures RemoveInvalidChars(a + b, isMn) == RemoveInvalidChars(a, isMn) + RemoveInvalidChars(b, isMn)
  {
    if a == [] {
      assert a + b == b;
    } else {
      assert (a + b)[0] == a[0];
      assert (a + b)[1..] == a[1..] + b;
      RemoveInvalidCharsAppend(a[1..], b, isMn);
    }
  }

  /** A text with no combining mark comes back unchanged. */
  lemma {:induction false} RemoveInvalidCharsKeepsClean(text: string, isMn: char -> bool)
    requires forall i :: 0 <= i < |text| ==> !isMn(text[i])
    ensures RemoveInvalidChars(text, isMn) == text
  {
    if text != [] {
      assert forall i :: 0 <= i < |text[1..]| ==> !isMn(text[1..][i]) by {
        forall i | 0 <= i < |text[1..]| ensures !isMn(text[1..][i]) {
          assert text[1..][i] == text[i + 1];
        }
      }
      RemoveInvalidCharsKeepsClean(text[1..], isMn);
      assert [text[0]] + text[1..] == text;
    }
  }

  /** Filtering twice is filtering once. */
  lemma RemoveInvalidCharsIdempotent(text: string, isMn: char -> bool)
    ensures RemoveInvalidChars(RemoveInvalidChars(text, isMn), isMn) == RemoveInvalidChars(text, isMn)
  {
    RemoveInvalidCharsKeepsClean(RemoveInvalidChars(text, isMn), isMn);
  }
}
