/**
 * The method gate of src/utils/methodNotAllowed.ts: a middleware built from a
 * list of allowed methods that lets those through and answers every other
 * method with 405 and an `Allow` header.
 */
module MethodGate {
  import opened Wrappers
  import opened Strings
  import opened Http

  const NotAllowedMessage := "Method not allowed"

  /** `methodNotAllowed(allowed)` applied to a request whose method is `verb`. */
  function MethodNotAllowed(allowed: seq<string>, verb: string): (e: Effect)
    ensures e == Next <==> verb in allowed
    ensures e.Sent? ==> e.response.code == 405 && e.response.allow == Some(Join(allowed, ", "))
    ensures e.Sent? ==> e.response.body == Envelope(Fail, Some(NotAllowedMessage), None, None)
  {
    if verb in allowed then Next
    else Sent(Response(405, Some(Join(allowed, ", ")), Envelope(Fail, Some(NotAllowedMessage), None, None)))
  }

  /** A list element of an `Allow` header without the one space that follows each comma. */
  function Unpad(piece: string): string
  {
    if |piece| > 0 && piece[0] == ' ' then piece[1..] else piece
  }

  /** How a client reads an `Allow` header back into method names. */
  function ParseAllow(header: string): (methods: seq<string>)
  {
    var pieces := Split(header, ',');
    seq(|pieces|, i requires 0 <= i < |pieces| => Unpad(pieces[i]))
  }

  /** The pieces of the joined list: the first method, then each later one after a space. */
  lemma {:induction false} SplitJoinedList(allowed: seq<string>)
    requires |allowed| >= 1
    requires forall i :: 0 <= i < |allowed| ==> ',' !in allowed[i]
    ensures var pieces := Split(Join(allowed, ", "), ',');
      |pieces| == |allowed| && pieces[0] == allowed[0] &&
      forall i :: 1 <= i < |allowed| ==> pieces[i] == " " + allowed[i]
  {
    if |allowed| == 1 {
      SplitWithoutSeparator(allowed[0], ',');
    } else {
      var rest := Join(allowed[1..], ", ");
      SplitJoinedList(allowed[1..]);
      var tail := Split(rest, ',');
      assert Join(allowed, ", ") == allowed[0] + [','] + (" " + rest);
      SplitAtFirstSeparator(allowed[0], ',', " " + rest);
      SplitPrefix(" ", rest, ',');
      var pieces := Split(Join(allowed, ", "), ',');
      assert pieces == [allowed[0]] + ([" " + tail[0]] + tail[1..]);
      forall i | 1 <= i < |allowed|
        ensures pieces[i] == " " + allowed[i]
      {
        if i > 1 {
          assert pieces[i] == tail[i - 1];
          assert allowed[1..][i - 1] == allowed[i];
        }
      }
    }
  }

  /**
   * The `Allow` header lists exactly the allowed methods, in the order given,
   * for any list of method names that hold no comma and do not start with a space.
   */
  lemma AllowHeaderRoundTrip(allowed: seq<string>)
    requires |allowed| >= 1
    requires forall i :: 0 <= i < |allowed| ==> ',' !in allowed[i]
    requires forall i :: 0 <= i < |allowed| ==> allowed[i] == "" || allowed[i][0] != ' '
    ensures ParseAllow(Join(allowed, ", ")) == allowed
  {
    SplitJoinedList(allowed);
    var pieces := Split(Join(allowed, ", "), ',');
    var parsed := ParseAllow(Join(allowed, ", "));
    assert |parsed| == |allowed|;
    forall i | 0 <= i < |allowed|
      ensures parsed[i] == allowed[i]
    {
      assert parsed[i] == Unpad(pieces[i]);
      UnpadPadded(allowed[i]);
    }
  }

  /** Unpadding leaves a name that does not start with a space as it is, with or without the space before it. */
  lemma UnpadPadded(name: string)
    requires name == "" || name[0] != ' '
    ensures Unpad(name) == name && Unpad(" " + name) == name
  {
    assert (" " + name)[1..] == name;
  }

  /** Membership is an exact match: a lower-case method does not match its upper-case name. */
  lemma MatchIsCaseSensitive()
    ensures MethodNotAllowed(["GET"], "get").Sent?
    ensures MethodNotAllowed(["GET"], "GET") == Next
  {
    assert "get" != "GET" by { assert "get"[0] != "GET"[0]; }
  }
}
