/**
 The ConfigMap key this program owns. Its text is the only state: an edit reads the key, parses it,
 applies the delta and writes the whole key back, but only when something changed.
 */
module FragmentStore {
  import opened Wrappers
  import opened Text
  import opened FragmentCodec
  import opened Routes

  /**
   `after` is `m` edited: removals first, then additions, both under lower-case names. When two
   additions differ only in case either may win.
   */
  ghost predicate IsEdit(m: Rewrites, add: Rewrites, remove: seq<string>, after: Rewrites) {
    && (forall h :: h in after <==>
          (exists k :: k in add && Lower(k) == h) || (h in m && !exists k :: k in remove && Lower(k) == h))
    && (forall h :: h in after ==>
          if exists k :: k in add && Lower(k) == h
          then exists k :: k in add && Lower(k) == h && after[h] == add[k]
          else h in m && after[h] == m[h])
  }

  /** An empty text rewrites nothing. */
  lemma NothingSays()
    ensures Parse("") == map[]
  {
    assert Fields("") == [];
    assert ParseLine("") == map[];
    assert [""][1..] == [];
    assert ParseLines([""]) == ParseLine("") + ParseLines([]);
  }

  class Fragment {
    var exists_: bool
    var data: map<string, string>
    /** ConfigMap writes that reached the cluster. */
    var writes: nat
    const key: string

    constructor (key: string, present: bool, data: map<string, string>)
      ensures this.key == key && this.exists_ == present && this.data == data && writes == 0
    {
      this.key, this.exists_, this.data, this.writes := key, present, data, 0;
    }

    /** The managed text; a missing ConfigMap or key reads as empty. */
    function Text(): string
      reads this
    {
      if exists_ && key in data then data[key] else ""
    }

    /** The rewrites the key holds. */
    function View(): Rewrites
      reads this
    {
      Parse(Text())
    }

    method Load(reply: Reply) returns (r: Result<Rewrites, ()>)
      ensures reply.Works? && !(exists_ && key in data) ==> r == Success(map[])
      ensures reply.Works? && exists_ && key in data ==> r == Success(Parse(data[key]))
      ensures r == if reply.Works? then Success(View()) else Failure(())
    {
      NothingSays();
      if !reply.Works? {
        return Failure(());
      }
      var m := ParseRewrites(Text());
      return Success(m);
    }

    /** Server-side apply of the owned key alone. */
    method Put(text: string, reply: Reply) returns (ok: bool)
      modifies this
      ensures ok <==> reply.Works?
      ensures reply.Fails? ==> unchanged(this)
      ensures !reply.Fails? ==> Text() == text && writes == old(writes) + 1
      ensures forall k :: k != key ==> (k in data <==> k in old(data)) && (k in data ==> data[k] == old(data)[k])
    {
      if !reply.Fails? {
        data, exists_, writes := data[key := text], true, writes + 1;
      }
      return reply.Works?;
    }

    /** `after` is what the key is meant to hold; it holds it once the write lands. */
    method Apply(add: Rewrites, remove: seq<string>, read: Reply, write: Reply)
      returns (r: Result<Rewrites, ()>, ghost after: Rewrites)
      modifies this
      ensures read.Works? ==> IsEdit(old(View()), add, remove, after)
      ensures !read.Works? || after == old(View()) ==> unchanged(this)
      ensures !read.Works? ==> r.Failure?
      ensures read.Works? && after == old(View()) ==> r == Success(after)
      ensures read.Works? && after != old(View()) ==> r == if write.Works? then Success(after) else Failure(())
      ensures read.Works? && after != old(View()) && write.Fails? ==> unchanged(this)
      ensures read.Works? && after != old(View()) && !write.Fails? ==>
        Text() == Render(after) && writes == old(writes) + 1 && (View() == after <==> Carriable(after))
      ensures forall k :: k != key ==> (k in data <==> k in old(data)) && (k in data ==> data[k] == old(data)[k])
    {
      var loaded := Load(read);
      after := View();
      if loaded.Failure? {
        return loaded, after;
      }
      var current := loaded.value;
      var desired := Delta(current, add, remove);
      after := desired;
      ParsedCarriable(Text());
      SameRewritesIsEquality(current, desired);
      if SameRewrites(current, desired) {
        return Success(desired), after;
      }
      var text := RenderRewrites(HEADER, desired);
      RoundTrip(desired);
      var ok := Put(text, write);
      return if ok then Success(desired) else Failure(()), after;
    }
  }

  /** The desired map: a copy of the current one, less the removals, then the additions. */
  method Delta(current: Rewrites, add: Rewrites, remove: seq<string>) returns (desired: Rewrites)
    ensures IsEdit(current, add, remove, desired)
  {
    desired := current;
    for i := 0 to |remove|
      invariant forall h :: h in desired <==> h in current && !exists k :: k in remove[..i] && Lower(k) == h
      invariant forall h :: h in desired ==> desired[h] == current[h]
    {
      assert remove[..i + 1] == remove[..i] + [remove[i]];
      desired := desired - {Lower(remove[i])};
    }
    assert remove[..|remove|] == remove;
    ghost var kept := desired;
    var left := add.Keys;
    while left != {}
      invariant left <= add.Keys
      invariant forall h :: h in desired <==> h in kept || exists k :: k in add && k !in left && Lower(k) == h
      invariant forall h :: h in desired ==>
        if exists k :: k in add && k !in left && Lower(k) == h
        then exists k :: k in add && k !in left && Lower(k) == h && desired[h] == add[k]
        else desired[h] == kept[h]
    {
      var k :| k in left;
      desired, left := desired[Lower(k) := add[k]], left - {k};
    }
  }
}
