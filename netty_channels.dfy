/**
 * The two Netty objects whose state the adapter changes: a channel, which can
 * be active or closed, and a channel pipeline, an ordered list of uniquely
 * named handlers. Handlers are represented by their names only.
 */
module NettyChannels {
  import opened Wrappers

  predicate Distinct(names: seq<string>) {
    forall i, j :: 0 <= i < j < |names| ==> names[i] != names[j]
  }

  /** The position of the first handler called `name`. */
  function IndexOf(names: seq<string>, name: string): (k: Option<nat>)
    ensures k.None? <==> name !in names
    ensures k.Some? ==> k.value < |names| && names[k.value] == name && name !in names[..k.value]
  {
    if names == [] then None
    else if names[0] == name then Some(0)
    else
      match IndexOf(names[1..], name)
      case None => None
      case Some(i) =>
        assert names[..i + 1] == [names[0]] + names[1..][..i];
        Some(i + 1)
  }

  /** The pipeline after removing the handler called `name`. */
  function RemoveName(names: seq<string>, name: string): (r: seq<string>)
    ensures |r| == if name in names then |names| - 1 else |names|
    ensures forall x :: x in r ==> x in names
    ensures Distinct(names) ==> Distinct(r) && name !in r
    ensures Distinct(names) ==> forall x :: x in names && x != name ==> x in r
  {
    if names == [] then []
    else
      assert Distinct(names) ==> names[0] !in names[1..] && Distinct(names[1..]) by {
        if Distinct(names) {
          assert forall i :: 0 <= i < |names[1..]| ==> names[1..][i] == names[i + 1];
        }
      }
      if names[0] == name then names[1..]
      else [names[0]] + RemoveName(names[1..], name)
  }

  /** Removing a handler cuts out exactly that handler and leaves every other one where it was. */
  lemma {:induction false} RemoveNameAt(names: seq<string>, name: string, i: nat)
    requires i < |names| && names[i] == name && name !in names[..i]
    ensures RemoveName(names, name) == names[..i] + names[i + 1..]
  {
    if i > 0 {
      assert names[0] != name by { assert names[0] == names[..i][0]; }
      assert name !in names[1..][..i - 1] by { assert names[1..][..i - 1] == names[1..i]; }
      RemoveNameAt(names[1..], name, i - 1);
      assert names[..i] == [names[0]] + names[1..][..i - 1];
      assert names[i + 1..] == names[1..][i..];
    }
  }

  /** Removing a name the pipeline does not hold changes nothing. */
  lemma {:induction false} RemoveNameAbsent(names: seq<string>, name: string)
    requires name !in names
    ensures RemoveName(names, name) == names
  {
    if names != [] {
      RemoveNameAbsent(names[1..], name);
    }
  }

  /** The handlers of `names` whose names are not in `dropped`, in their order. */
  function Without(names: seq<string>, dropped: set<string>): seq<string> {
    if names == [] then []
    else if names[0] in dropped then Without(names[1..], dropped)
    else [names[0]] + Without(names[1..], dropped)
  }

  /** In a pipeline of unique names, removing one name keeps all others in order. */
  lemma {:induction false} RemoveNameIsWithout(names: seq<string>, name: string)
    requires Distinct(names)
    ensures RemoveName(names, name) == Without(names, {name})
  {
    if names != [] {
      assert Distinct(names[1..]);
      if names[0] == name {
        WithoutAbsent(names[1..], {name});
      } else {
        RemoveNameIsWithout(names[1..], name);
      }
    }
  }

  lemma {:induction false} WithoutAbsent(names: seq<string>, dropped: set<string>)
    requires forall x :: x in names ==> x !in dropped
    ensures Without(names, dropped) == names
  {
    if names != [] {
      WithoutAbsent(names[1..], dropped);
    }
  }

  lemma {:induction false} WithoutTwice(names: seq<string>, a: set<string>, b: set<string>)
    ensures Without(Without(names, a), b) == Without(names, a + b)
  {
    if names != [] {
      WithoutTwice(names[1..], a, b);
    }
  }

  class Channel {
    var active: bool
    /** How many times the channel was asked to close. */
    var closeRequests: nat

    constructor (active: bool)
      ensures this.active == active && closeRequests == 0
    {
      this.active := active;
      closeRequests := 0;
    }

    method Close()
      modifies this
      ensures !active && closeRequests == old(closeRequests) + 1
    {
      active := false;
      closeRequests := closeRequests + 1;
    }
  }

  class ChannelPipeline {
    var names: seq<string>

    ghost predicate Valid()
      reads this
    {
      Distinct(names)
    }

    constructor (names: seq<string>)
      requires Distinct(names)
      ensures Valid() && this.names == names
    {
      this.names := names;
    }

    /** The position of the handler called `name`, or None (Netty's null) when there is none. */
    function Get(name: string): (h: Option<nat>)
      reads this
      ensures h.Some? <==> name in names
      ensures h.Some? ==> h.value < |names| && names[h.value] == name
    {
      IndexOf(names, name)
    }

    /** Removes the handler called `name`; Netty fails when there is none, so callers check first. */
    method Remove(name: string)
      requires Valid() && name in names
      modifies this
      ensures Valid()
      ensures names == RemoveName(old(names), name)
    {
      var i := IndexOf(names, name).value;
      RemoveNameAt(names, name, i);
      names := names[..i] + names[i + 1..];
    }
  }
}
