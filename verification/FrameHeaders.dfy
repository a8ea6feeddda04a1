/** What the reader of framed messages takes for the end of a header and for its length, on any bytes. */
module FrameHeaders {
  import opened ContentLength
  import opened Text

  const UPPER := "CONTENT-LENGTH:"

  // ----- The end of a header -----

  ghost predicate EndsAt(buffer: Bytes, k: nat) {
    k + 4 <= |buffer| && buffer[k..k + 4] == SEPARATOR
  }

  /** A header ends at the first empty line, and without one the reader waits. */
  lemma HeaderEndIff(buffer: Bytes)
    ensures IndexFrom(buffer, 0).None? <==> forall k: nat :: !EndsAt(buffer, k)
    ensures forall k: nat :: IndexFrom(buffer, 0) == Some(k) <==>
              EndsAt(buffer, k) && forall j: nat :: j < k ==> !EndsAt(buffer, j)
  {
    hide IndexFrom;
    forall k: nat ensures EndsAt(buffer, k) <==> SeparatorAt(buffer, k) {
      if k + 4 <= |buffer| {
        assert buffer[k..k + 4] == [buffer[k], buffer[k + 1], buffer[k + 2], buffer[k + 3]];
      }
    }
    var end := IndexFrom(buffer, 0);
    forall k: nat | EndsAt(buffer, k) && forall j: nat :: j < k ==> !EndsAt(buffer, j) ensures end == Some(k) {
      assert SeparatorAt(buffer, k);
      assert EndsAt(buffer, end.value);
    }
  }

  // ----- The length -----

  /** The field's name in capital or small letters. */
  predicate IsField(s: string) {
    |s| == |FIELD| && forall k :: 0 <= k < |s| ==> s[k] == FIELD[k] || s[k] == UPPER[k]
  }

  /** A line of the header starts at i with the field, and then come white space, digits and the end of a line. */
  predicate Reads(headers: string, i: nat, start: nat, stop: nat) {
    && i + |FIELD| <= start < stop <= |headers|
    && (i == 0 || IsLineTerminator(headers[i - 1]))
    && IsField(headers[i..i + |FIELD|])
    && (forall k :: i + |FIELD| <= k < start ==> IsSpace(headers[k]))
    && (forall k :: start <= k < stop ==> IsDigit(headers[k]))
    && (stop == |headers| || IsLineTerminator(headers[stop]))
  }

  lemma FieldLetters()
    ensures |UPPER| == |FIELD| && forall k :: 0 <= k < |FIELD| ==>
              LowerChar(UPPER[k]) == FIELD[k] == LowerChar(FIELD[k])
    ensures forall k, c :: 0 <= k < |FIELD| && LowerChar(c) == FIELD[k] ==> c == FIELD[k] || c == UPPER[k]
  {
  }

  lemma IsFieldIff(s: string)
    ensures IsField(s) <==> Lower(s) == FIELD
  {
    hide LowerChar;
    FieldLetters();
    if Lower(s) == FIELD {
      forall k | 0 <= k < |s| ensures s[k] == FIELD[k] || s[k] == UPPER[k] {
        assert LowerChar(s[k]) == Lower(s)[k];
      }
    }
  }

  lemma SpacesAre(s: string, i: nat, n: nat)
    requires i + n < |s| && (forall k :: i <= k < i + n ==> IsSpace(s[k])) && !IsSpace(s[i + n])
    ensures SpacesAt(s, i) == n
  {
    hide SpacesAt, IsSpace;
  }

  lemma DigitsAre(s: string, i: nat, n: nat)
    requires i + n <= |s| && (forall k :: i <= k < i + n ==> IsDigit(s[k])) && (i + n < |s| ==> !IsDigit(s[i + n]))
    ensures DigitsAt(s, i) == n
  {
    hide DigitsAt, IsDigit;
  }

  lemma CharsDiffer()
    ensures forall c :: IsDigit(c) ==> !IsSpace(c) && !IsLineTerminator(c)
  {
  }

  /** The length is read at a position exactly when the line there can be read so, and is then the number printed. */
  lemma LengthIff(headers: string, i: nat, n: nat)
    requires i <= |headers|
    ensures LengthAt(headers, i) == Some(n) <==>
            exists start: nat, stop: nat :: Reads(headers, i, start, stop) && Value(headers[start..stop]) == n
  {
    hide IsSpace, IsLineTerminator, IsDigit, SpacesAt, DigitsAt, Value, Lower, IsField;
    CharsDiffer();
    if i + |FIELD| <= |headers| {
      IsFieldIff(headers[i..i + |FIELD|]);
    }
    if LengthAt(headers, i) == Some(n) {
      var start := i + |FIELD| + SpacesAt(headers, i + |FIELD|);
      var stop := start + DigitsAt(headers, start);
      assert Reads(headers, i, start, stop);
    }
    if start: nat, stop: nat :| Reads(headers, i, start, stop) && Value(headers[start..stop]) == n {
      SpacesAre(headers, i + |FIELD|, start - (i + |FIELD|));
      DigitsAre(headers, start, stop - start);
    }
  }
}
