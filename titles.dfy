/**
 * Title derivation on the first send of a conversation: the message itself when it
 * has at most 30 characters, otherwise its first 30 characters followed by "...".
 */
module Titles {

  const TitleLimit: nat := 30
  const Ellipsis: string := "..."

  function DeriveTitle(msg: string): (title: string)
    // never longer than the limit plus the ellipsis
    ensures |title| <= TitleLimit + |Ellipsis|
    // short messages are kept whole
    ensures |msg| <= TitleLimit ==> title == msg
    // long ones keep exactly their first 30 characters and are marked as cut
    ensures |msg| > TitleLimit ==>
      |title| == TitleLimit + |Ellipsis| && title[..TitleLimit] == msg[..TitleLimit] && title[TitleLimit..] == Ellipsis
  {
    if |msg| > TitleLimit then msg[..TitleLimit] + Ellipsis else msg
  }

  /** The title always starts with the message, up to the limit. */
  lemma TitleStartsWithMessage(msg: string)
    ensures var n := if |msg| < TitleLimit then |msg| else TitleLimit;
      |DeriveTitle(msg)| >= n && DeriveTitle(msg)[..n] == msg[..n]
  {
  }

  /** Deriving a title from a derived title changes nothing: a cut title has 33
      characters, and cutting it again gives back the same 30 characters and "...". */
  lemma DeriveTitleIdempotent(msg: string)
    ensures DeriveTitle(DeriveTitle(msg)) == DeriveTitle(msg)
  {
  }

  /** The title equals the message exactly when the message is short, or when it is a
      33-character message whose 30-character prefix is followed by "..." already. */
  lemma TitleIsMessageIff(msg: string)
    ensures DeriveTitle(msg) == msg <==>
      |msg| <= TitleLimit || (|msg| == TitleLimit + |Ellipsis| && msg[TitleLimit..] == Ellipsis)
  {
    if |msg| > TitleLimit && |msg| == TitleLimit + |Ellipsis| && msg[TitleLimit..] == Ellipsis {
      assert msg == msg[..TitleLimit] + msg[TitleLimit..];
    }
  }
}
