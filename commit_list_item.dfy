/** The text rules of a commit's card (components/CommitListItem.tsx): the
    title is the message's first line, the sha is cut to seven characters,
    and the rest of the message is shown as a body of at most 150
    characters, with an ellipsis when it was cut. */
module CommitListItem {
  import opened Wrappers
  import opened Strings

  const ShaLength: nat := 7
  const BodyLimit: nat := 150

  /** `message.split('\n')[0]`: the message up to its first line break. */
  function Title(message: string): (r: string)
    ensures '\n' !in r
    ensures |r| <= |message| && r == message[..|r|]
    ensures |r| < |message| ==> message[|r|] == '\n'
    ensures r == message <==> '\n' !in message
  {
    var parts := Split(message, '\n');
    assert Join(parts, '\n') == message;
    assert |parts| > 1 ==> message[|parts[0]|] == '\n' by {
      if |parts| > 1 {
        assert message == parts[0] + ['\n'] + Join(parts[1..], '\n');
      }
    }
    parts[0]
  }

  /** `sha.substring(0, 7)`: the first seven characters, or all of a shorter sha. */
  function ShortSha(sha: string): (r: string)
    ensures |r| == if |sha| < ShaLength then |sha| else ShaLength
    ensures r == sha[..|r|]
  {
    Substring(sha, 0, ShaLength)
  }

  /** `message.includes('\n')`: the message has more than one line. */
  predicate ShowsBody(message: string) {
    Contains(message, "\n")
  }

  lemma ShowsBodyIffBreak(message: string)
    ensures ShowsBody(message) <==> '\n' in message
  {
    if ShowsBody(message) {
      var i := IndexOf(message, "\n").value;
      assert message[i] == "\n"[0];
    }
    if '\n' in message {
      var k :| 0 <= k < |message| && message[k] == '\n';
      assert OccursAt(message, "\n", k) by { assert message[k..k + 1] == [message[k]]; }
      ContainsAt(message, "\n", k);
    }
  }

  /** The text after the message's first line break. */
  function AfterFirstLine(message: string): (r: string)
    requires '\n' in message
    ensures message == Title(message) + "\n" + r
  {
    var t := Title(message);
    assert message == message[..|t|] + [message[|t|]] + message[|t| + 1..];
    message[|t| + 1..]
  }

  /** `message.substring(message.indexOf('\n') + 1).substring(0, 150)`,
      drawn only when the message has a line break. */
  function Body(message: string): (r: Option<string>)
    ensures r.Some? <==> '\n' in message
    ensures r.Some? ==> var rest := AfterFirstLine(message);
                        |r.value| == (if |rest| < BodyLimit then |rest| else BodyLimit)
                        && r.value == rest[..|r.value|]
  {
    ShowsBodyIffBreak(message);
    if !ShowsBody(message) then None
    else
      var i := IndexOf(message, "\n").value;
      BreakIsTitleEnd(message, i);
      Some(Substring(message[i + 1..], 0, BodyLimit))
  }

  /** `indexOf('\n')` finds the break that ends the title of `split`. */
  lemma BreakIsTitleEnd(message: string, i: nat)
    requires IndexOf(message, "\n") == Some(i)
    ensures '\n' in message && i == |Title(message)|
  {
    assert message[i] == "\n"[0];
    forall j | 0 <= j < i
      ensures message[j] != '\n'
    {
      assert !OccursAt(message, "\n", j) && message[j..j + 1] == [message[j]];
    }
  }

  /** The ellipsis as written: `commit.message.length > 150`, under the
      body's `includes('\n')`, which measures the whole message, title
      included. */
  predicate EllipsisAsWritten(message: string) {
    ShowsBody(message) && |message| > BodyLimit
  }

  /** The ellipsis as intended: shown exactly when the body was cut. */
  predicate Ellipsis(message: string) {
    '\n' in message && |AfterFirstLine(message)| > BodyLimit
  }

  /** Every cut body also gets the ellipsis as written: the written test
      shows too many ellipses, never too few. */
  lemma EllipsisAsWrittenCoversCuts(message: string)
    ensures Ellipsis(message) ==> EllipsisAsWritten(message)
  {
    ShowsBodyIffBreak(message);
  }

  /** A 100-character title and a 60-character body: the body is shown whole,
      yet the ellipsis as written follows it. */
  lemma SpuriousEllipsis()
    ensures var message := seq(100, _ => 'a') + "\n" + seq(60, _ => 'b');
            EllipsisAsWritten(message) && !Ellipsis(message)
            && Body(message) == Some(seq(60, _ => 'b'))
  {
    var title, rest := seq(100, _ => 'a'), seq(60, _ => 'b');
    var message := title + "\n" + rest;
    assert message[100] == '\n';
    ShowsBodyIffBreak(message);
    assert |Title(message)| == 100 by {
      var t := Title(message);
      assert message[..100] == title;
      assert forall j :: 0 <= j < 100 ==> message[j] == 'a';
    }
    assert AfterFirstLine(message) == rest;
    assert |message| == 161;
    assert rest[..60] == rest;
  }

  /** What the card prints for a commit. */
  datatype CommitView = CommitView(title: string, shortSha: string, body: Option<string>, ellipsis: bool)

  /** The card of a commit, with the ellipsis as intended. */
  function Card(message: string, sha: string): (v: CommitView)
    ensures v.ellipsis ==> v.body.Some? && |v.body.value| == BodyLimit
    ensures v.body.Some? && |v.body.value| < BodyLimit ==> !v.ellipsis
    ensures v.body.Some? <==> '\n' in message
    ensures v.ellipsis <==> v.body.Some? && v.body.value != AfterFirstLine(message)
    ensures '\n' in message ==> message == v.title + "\n" + AfterFirstLine(message)
  {
    CommitView(Title(message), ShortSha(sha), Body(message), Ellipsis(message))
  }
}
