/** Scans of small concrete sources. */
module ScannerScenarios {
  import opened Tokens
  import opened Scanner
  import opened ScannerProperties

  /** Two characters the scanner does not recognize give two error tokens,
      one per character, and the trailing `Eof`. */
  lemma ScanUnrecognized()
    ensures Scan("@#") == [
      Token(Error(UnrecognizedChar), 0, 1, 0), Token(Error(UnrecognizedChar), 1, 2, 0),
      Token(Eof, 2, 2, 0)]
  {
    StepAtUnrecognized("@#", 1, 0);
    assert ScanFrom("@#", 1, 0) == [Token(Error(UnrecognizedChar), 1, 2, 0), Token(Eof, 2, 2, 0)];
    StepAtUnrecognized("@#", 0, 0);
  }
}
