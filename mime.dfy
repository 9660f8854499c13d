/**
 * The drop filter `file.type.match("image/(jpeg|jpg|png)")`: the pattern has
 * no anchors, so it accepts any MIME type that contains one of three strings.
 */
module Mime {
  /** `pattern` occurs in `s` starting at index `i`. */
  predicate OccursAt(s: string, pattern: string, i: int)
  {
    0 <= i && i + |pattern| <= |s| && s[i..i + |pattern|] == pattern
  }

  /** Left-to-right search for `pattern` in `s`. */
  function Contains(s: string, pattern: string): (r: bool)
    requires pattern != []
    ensures r ==> |pattern| <= |s|
    ensures |pattern| <= |s| && s[..|pattern|] == pattern ==> r
    decreases |s|
  {
    if |s| < |pattern| then false
    else s[..|pattern|] == pattern || Contains(s[1..], pattern)
  }

  /** The search succeeds exactly when the pattern occurs at some position. */
  lemma {:induction false} ContainsIffOccurs(s: string, pattern: string)
    requires pattern != []
    ensures Contains(s, pattern) <==> exists i :: OccursAt(s, pattern, i)
    decreases |s|
  {
    if |s| >= |pattern| {
      ContainsIffOccurs(s[1..], pattern);
      if Contains(s, pattern) {
        if s[..|pattern|] == pattern {
          assert OccursAt(s, pattern, 0);
        } else {
          var j :| OccursAt(s[1..], pattern, j);
          assert s[1..][j..j + |pattern|] == s[j + 1..j + 1 + |pattern|];
          assert OccursAt(s, pattern, j + 1);
        }
      } else {
        forall i | 0 <= i ensures !OccursAt(s, pattern, i) {
          if i == 0 {
          } else if i + |pattern| <= |s| {
            assert s[1..][i - 1..i - 1 + |pattern|] == s[i..i + |pattern|];
            assert !OccursAt(s[1..], pattern, i - 1);
          }
        }
      }
    }
  }

  const Jpeg: string := "image/jpeg"
  const Jpg: string := "image/jpg"
  const Png: string := "image/png"

  /** Whether a dropped file of this MIME type is processed. */
  function Accepted(mimeType: string): (r: bool)
    ensures r ==> |mimeType| >= |Png|
  {
    Contains(mimeType, Jpeg) || Contains(mimeType, Jpg) || Contains(mimeType, Png)
  }

  /** The match is a substring test: a type is accepted iff one of the three occurs in it. */
  lemma AcceptedIffOccurs(mimeType: string)
    ensures Accepted(mimeType) <==>
              (exists i :: OccursAt(mimeType, Jpeg, i)) ||
              (exists i :: OccursAt(mimeType, Jpg, i)) ||
              (exists i :: OccursAt(mimeType, Png, i))
  {
    ContainsIffOccurs(mimeType, Jpeg);
    ContainsIffOccurs(mimeType, Jpg);
    ContainsIffOccurs(mimeType, Png);
  }

  /** The three intended types pass; so does any type that merely embeds one of them. */
  lemma AcceptedExamples()
    ensures Accepted("image/jpeg") && Accepted("image/jpg") && Accepted("image/png")
    ensures Accepted("x-image/pngfoo")
  {
  }

  /** A GIF (or any type shorter than the shortest pattern) is ignored. */
  lemma RejectedExamples()
    ensures !Accepted("image/gif")
    ensures !Accepted("")
  {
    var gif := "image/gif";
    ContainsIffOccurs(gif, Jpg);
    ContainsIffOccurs(gif, Png);
    assert !OccursAt(gif, Jpg, 0) by { assert gif[6] != Jpg[6]; }
    assert !OccursAt(gif, Png, 0) by { assert gif[6] != Png[6]; }
  }
}
