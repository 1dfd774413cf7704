/** `TestScanView.get_box_scanned_url`: the scanned-box URL for a box number,
    with a leading "box" (in any letter case) removed once. */
module TestScan {
  import opened Strings
  import opened Routes

  const BoxPrefix := "box"

  /** `box_number.lower().startswith('box')`. */
  predicate HasBoxPrefix(s: string) {
    StartsWith(Lower(s), BoxPrefix)
  }

  /** The prefix test is a per-letter case-insensitive match of the first three
      characters. */
  lemma HasBoxPrefixIffLetters(s: string)
    ensures HasBoxPrefix(s) <==>
      |s| >= 3 && s[0] in {'b', 'B'} && s[1] in {'o', 'O'} && s[2] in {'x', 'X'}
  {
  }

  /** The box number as the URL argument: the first three characters are
      dropped when they spell "box", and nothing else changes. */
  function StripBoxPrefix(s: string): (r: string)
    ensures HasBoxPrefix(s) ==> |r| == |s| - 3 && s == s[..3] + r
    ensures !HasBoxPrefix(s) ==> r == s
  {
    if HasBoxPrefix(s) then s[3..] else s
  }

  /** Removal happens once only: "BoxBox12" keeps its second "Box". */
  lemma StripBoxPrefixOnce()
    ensures StripBoxPrefix("BoxBox12") == "Box12"
    ensures HasBoxPrefix(StripBoxPrefix("BoxBox12"))
  {
  }

  /** Stripping undoes prefixing: any three-letter spelling of "box" put in
      front of a number is removed again, leaving the number itself. */
  lemma StripBoxPrefixUndoesPrefix(p: string, number: string)
    requires |p| == 3 && Lower(p) == BoxPrefix
    ensures StripBoxPrefix(p + number) == number
  {
  }

  /** A number that does not start with "box" passes through unchanged. */
  lemma StripBoxPrefixKeepsOthers(s: string)
    requires |s| < 3 || s[0] !in {'b', 'B'} || s[1] !in {'o', 'O'} || s[2] !in {'x', 'X'}
    ensures StripBoxPrefix(s) == s
  {
  }

  /** The route `get_box_scanned_url` reverses. */
  function BoxScannedUrl(boxNumber: string): (r: Route)
    ensures r.BoxScanned?
    ensures HasBoxPrefix(boxNumber) ==> boxNumber == boxNumber[..3] + r.number
    ensures !HasBoxPrefix(boxNumber) ==> r.number == boxNumber
  {
    BoxScanned(StripBoxPrefix(boxNumber))
  }
}
