/**
 * The aggregate read failure: it collects the failures met while reading
 * the classes of an artifact and is raised only when there is at least one.
 */
module ReadErrors {
  import opened Wrappers

  /** One failure to read a class, with its message. */
  datatype ReadClassException = ReadClassException(message: string)

  /** Each cause's message followed by a newline, in order. */
  function Joined(causes: seq<ReadClassException>): string
    decreases |causes|
  {
    if causes == [] then ""
    else Joined(causes[..|causes| - 1]) + causes[|causes| - 1].message + "\n"
  }

  /** Joining distributes over concatenation of the cause lists. */
  lemma {:induction false} JoinedAppend(a: seq<ReadClassException>, b: seq<ReadClassException>)
    ensures Joined(a + b) == Joined(a) + Joined(b)
    decreases |b|
  {
    if b == [] {
      assert a + b == a;
    } else {
      var b' := b[..|b| - 1];
      assert (a + b)[..|a + b| - 1] == a + b';
      JoinedAppend(a, b');
    }
  }

  /** The message is empty exactly when there are no causes; otherwise it ends with a newline. */
  lemma {:induction false} JoinedEmpty(causes: seq<ReadClassException>)
    ensures Joined(causes) == "" <==> causes == []
    ensures causes != [] ==> Joined(causes)[|Joined(causes)| - 1] == '\n'
    ensures |Joined(causes)| >= |causes|
    decreases |causes|
  {
    if causes != [] {
      JoinedEmpty(causes[..|causes| - 1]);
    }
  }

  /** The message of a single cause is its own message on one line. */
  lemma JoinedSingle(cause: ReadClassException)
    ensures Joined([cause]) == cause.message + "\n"
  {
    assert [cause][..0] == [];
  }

  class ReadClassesException {
    var causes: seq<ReadClassException>

    constructor ()
      ensures causes == []
    {
      causes := [];
    }

    method Add(cause: ReadClassException)
      modifies this
      ensures causes == old(causes) + [cause]
    {
      causes := causes + [cause];
    }

    /** `getMessage`: every cause's message, each followed by "\n", in the order they were added. */
    method GetMessage() returns (message: string)
      ensures message == Joined(causes)
    {
      message := "";
      for i := 0 to |causes|
        invariant message == Joined(causes[..i])
      {
        assert causes[..i + 1][..i] == causes[..i];
        message := message + causes[i].message + "\n";
      }
      assert causes[..|causes|] == causes;
    }

    /** `throwIfNeeded`: the aggregate itself is raised exactly when it holds a cause. */
    method ThrowIfNeeded() returns (thrown: Option<ReadClassesException>)
      ensures thrown.Some? <==> causes != []
      ensures thrown.Some? ==> thrown.value == this
    {
      if |causes| > 0 {
        return Some(this);
      }
      return None;
    }
  }
}
