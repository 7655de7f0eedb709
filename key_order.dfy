/**
 * Insertion order of the conversation ids, the keys of a Python dict. Deleting a key keeps the relative
 * order of the others; `next(iter(d))` is the first remaining key.
 */
module KeyOrder {

  import opened Records

  ghost predicate Distinct(s: seq<ChatId>) {
    forall i, j :: 0 <= i < j < |s| ==> s[i] != s[j]
  }

  /** The key order after `del d[k]`. */
  function RemoveKey(s: seq<ChatId>, k: ChatId): (r: seq<ChatId>)
    ensures forall x :: x in r <==> x in s && x != k
    ensures Distinct(s) ==> Distinct(r)
    ensures k !in s ==> r == s
    ensures |r| <= |s|
  {
    if s == [] then []
    else if s[0] == k then RemoveKey(s[1..], k)
    else
      var rest := RemoveKey(s[1..], k);
      assert Distinct(s) ==> Distinct(s[1..]) && s[0] !in s[1..] by {
        if Distinct(s) {
          forall i, j | 0 <= i < j < |s[1..]| ensures s[1..][i] != s[1..][j] {
            assert s[1..][i] == s[i + 1] && s[1..][j] == s[j + 1];
          }
          forall j | 0 <= j < |s[1..]| ensures s[1..][j] != s[0] {
            assert s[1..][j] == s[j + 1];
          }
        }
      }
      [s[0]] + rest
  }

  /** In a duplicate-free order, removing the key at position i removes exactly that
      position and leaves every other key where it was relative to the rest. */
  lemma {:induction false} RemoveKeyAt(s: seq<ChatId>, k: ChatId, i: nat)
    requires Distinct(s) && i < |s| && s[i] == k
    ensures RemoveKey(s, k) == s[..i] + s[i + 1..]
  {
    if i == 0 {
      assert k !in s[1..];
    } else {
      RemoveKeyAt(s[1..], k, i - 1);
      assert s[1..][..i - 1] == s[1..i];
      assert s[1..][i - 1 + 1..] == s[i + 1..];
      assert s[..i] == [s[0]] + s[1..i];
    }
  }

  /** The first remaining key after removing k: the second key if k came first,
      otherwise the first key is untouched. */
  lemma RemoveKeyFirst(s: seq<ChatId>, k: ChatId)
    requires Distinct(s) && |s| >= 2
    ensures s[0] == k ==> RemoveKey(s, k)[0] == s[1]
    ensures s[0] != k ==> RemoveKey(s, k)[0] == s[0]
  {
    if s[0] == k {
      RemoveKeyAt(s, k, 0);
    }
  }
}
