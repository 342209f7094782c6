/**
 * Doc-comment tag extraction (`getDocComment`): the text of the first comment
 * line that mentions a tag, with the first `tag + " "` removed, or the empty
 * string when the comment is missing or never mentions the tag.
 */
module DocComments {
  import opened Wrappers
  import opened Strings

  /** The tags the engine looks up. */
  const IgnoreTag := "@ignore"
  const DefaultValueTag := "@defaultValue"
  const DescriptionTag := "@description"
  const PlaceholderTag := "@placeholder"

  /** Position of the first line that mentions `tag`, or -1 when none does. */
  function FirstTaggedLine(lines: seq<string>, tag: string): (k: int)
    ensures -1 <= k < |lines|
    ensures k == -1 <==> forall i | 0 <= i < |lines| :: !Contains(lines[i], tag)
    ensures k >= 0 ==> Contains(lines[k], tag)
    ensures k >= 0 ==> forall i | 0 <= i < k :: !Contains(lines[i], tag)
  {
    if |lines| == 0 then -1
    else if IndexOf(lines[0], tag) > -1 then 0
    else
      var k := FirstTaggedLine(lines[1..], tag);
      if k == -1 then -1 else k + 1
  }

  /** `getDocComment(docComment, tag)`; `None` stands for a comment that is not an array. */
  function GetDocComment(docComment: Option<seq<string>>, tag: string): (r: string)
    ensures docComment.None? ==> r == ""
    ensures docComment.Some? ==>
      (forall i | 0 <= i < |docComment.value| :: !Contains(docComment.value[i], tag)) ==> r == ""
    ensures docComment.Some? && FirstTaggedLine(docComment.value, tag) >= 0 ==>
      r == ReplaceFirst(docComment.value[FirstTaggedLine(docComment.value, tag)], tag + " ", "")
  {
    match docComment
    case None => ""
    case Some(lines) =>
      var k := FirstTaggedLine(lines, tag);
      if k == -1 then "" else ReplaceFirst(lines[k], tag + " ", "")
  }

  /** The lookup reads the first line that mentions the tag, and only that line. */
  lemma LookupReadsFirstTaggedLine(lines: seq<string>, k: nat, tag: string)
    requires k < |lines| && Contains(lines[k], tag)
    requires forall i | 0 <= i < k :: !Contains(lines[i], tag)
    ensures GetDocComment(Some(lines), tag) == ReplaceFirst(lines[k], tag + " ", "")
  {
    var f := FirstTaggedLine(lines, tag);
    assert f != -1;
    assert !(f < k) && !(k < f);
  }

  /** A property or enum member is dropped when its `@ignore` lookup is non-empty. */
  predicate IsIgnored(docComment: Option<seq<string>>): (r: bool)
    ensures docComment.None? ==> !r
    ensures docComment.Some? ==>
      (r <==> FirstTaggedLine(docComment.value, IgnoreTag) != -1
              && docComment.value[FirstTaggedLine(docComment.value, IgnoreTag)] != IgnoreTag + " ")
  {
    if docComment.Some? then
      EmptyLookupIff(docComment.value, IgnoreTag);
      GetDocComment(docComment, IgnoreTag) != ""
    else
      GetDocComment(docComment, IgnoreTag) != ""
  }

  /** A comment in which no line mentions the tag yields the empty string. */
  lemma UntaggedLookupIsEmpty(lines: seq<string>, tag: string)
    requires forall i | 0 <= i < |lines| :: !Contains(lines[i], tag)
    ensures GetDocComment(Some(lines), tag) == ""
  {
  }

  /** A line written `tag text` yields exactly `text`. */
  lemma TaggedLineYieldsText(lines: seq<string>, k: nat, tag: string, text: string)
    requires k < |lines| && lines[k] == tag + " " + text
    requires forall i | 0 <= i < k :: !Contains(lines[i], tag)
    ensures GetDocComment(Some(lines), tag) == text
  {
    assert lines[k][..|tag|] == tag;
    assert OccursAt(lines[k], tag, 0);
    LookupReadsFirstTaggedLine(lines, k, tag);
    ReplaceFirstPrefix(tag + " ", text, "");
    assert "" + text == text;
  }

  /**
   * The lookup is empty exactly when no line mentions the tag, or when the
   * first line that does is the bare `tag + " "` (the source tests the
   * stripped text for truthiness, not the presence of the tag).
   */
  lemma EmptyLookupIff(lines: seq<string>, tag: string)
    requires |tag| > 0
    ensures GetDocComment(Some(lines), tag) == "" <==>
      (FirstTaggedLine(lines, tag) == -1 || lines[FirstTaggedLine(lines, tag)] == tag + " ")
  {
    var k := FirstTaggedLine(lines, tag);
    if k != -1 {
      var s, pat := lines[k], tag + " ";
      var i := IndexOf(s, pat);
      if i == -1 {
        var w: nat :| w <= |s| && OccursAt(s, tag, w);
        assert |s| > 0;
        assert !OccursAt(s, pat, 0);
      } else {
        assert |s[..i] + s[i + |pat|..]| == |s| - |pat|;
        if |s| == |pat| {
          assert s == s[0..0 + |pat|];
        }
      }
    }
  }
}
