/**
 * Namespace entries as `kubectl get ns -o name` lists them (`namespace/<name>`),
 * and the prefix filter both scripts apply to them with `grep`.
 */
module Namespaces {
  import opened Enumerable
  import opened RubyString

  /** Every entry of `kubectl get ns -o name` starts with this. */
  const ResourcePrefix := "namespace/"

  /** `ns.delete_prefix('namespace/')`: the bare namespace name of an entry. */
  function Name(entry: string): (n: string)
    ensures StartsWith(entry, ResourcePrefix) ==> entry == ResourcePrefix + n
    ensures !StartsWith(entry, ResourcePrefix) ==> n == entry
  {
    DeletePrefix(entry, ResourcePrefix)
  }

  /** The bare names of a list of entries, in order. */
  function Names(entries: seq<string>): seq<string>
  {
    Map(entries, Name)
  }

  /**
   * `entries.grep(/^namespace\/<prefix>/)`, reading `<prefix>` as literal text and
   * each entry as a single line: the entries that start with `namespace/<prefix>`.
   */
  function Grep(entries: seq<string>, prefix: string): seq<string>
  {
    Select(entries, e => StartsWith(e, ResourcePrefix + prefix))
  }

  /**
   * The entries `Grep` keeps are exactly those starting with `namespace/<prefix>`,
   * each as many times as it is listed, and in listing order: grepping two listings
   * one after the other is grepping each in turn.
   */
  lemma GrepExact(entries: seq<string>, more: seq<string>, prefix: string)
    ensures forall e :: e in Grep(entries, prefix) <==> e in entries && StartsWith(e, ResourcePrefix + prefix)
    ensures forall e :: multiset(Grep(entries, prefix))[e] ==
                        if StartsWith(e, ResourcePrefix + prefix) then multiset(entries)[e] else 0
    ensures Grep(entries + more, prefix) == Grep(entries, prefix) + Grep(more, prefix)
  {
    forall e ensures multiset(Grep(entries, prefix))[e] ==
                     if StartsWith(e, ResourcePrefix + prefix) then multiset(entries)[e] else 0
    {
      SelectCount(entries, e => StartsWith(e, ResourcePrefix + prefix), e);
    }
    SelectAppend(entries, more, e => StartsWith(e, ResourcePrefix + prefix));
  }

  /**
   * Grepping for a longer prefix only narrows: grepping the entries already kept for
   * `prefix` with `prefix + more` keeps what grepping with `prefix + more` keeps.
   */
  lemma {:induction false} GrepNarrow(entries: seq<string>, prefix: string, more: string)
    ensures Grep(Grep(entries, prefix), prefix + more) == Grep(entries, prefix + more)
  {
    if entries != [] {
      var e, tail := entries[0], entries[1..];
      assert entries == [e] + tail;
      var kept := Grep(entries, prefix);
      assert kept == Grep([e], prefix) + Grep(tail, prefix) by {
        GrepAppend([e], tail, prefix);
      }
      assert StartsWith(e, ResourcePrefix + (prefix + more)) ==> StartsWith(e, ResourcePrefix + prefix) by {
        assert ResourcePrefix + (prefix + more) == (ResourcePrefix + prefix) + more;
        StartsWithConcat(e, ResourcePrefix + prefix, more);
      }
      if StartsWith(e, ResourcePrefix + prefix) {
        GrepSingle(e, prefix);
        calc {
          Grep(kept, prefix + more);
          == { GrepAppend([e], Grep(tail, prefix), prefix + more); }
          Grep([e], prefix + more) + Grep(Grep(tail, prefix), prefix + more);
          == { GrepNarrow(tail, prefix, more); }
          Grep([e], prefix + more) + Grep(tail, prefix + more);
          == { GrepAppend([e], tail, prefix + more); }
          Grep(entries, prefix + more);
        }
      } else {
        GrepSingle(e, prefix);
        calc {
          Grep(kept, prefix + more);
          == { assert kept == Grep(tail, prefix); }
          Grep(Grep(tail, prefix), prefix + more);
          == { GrepNarrow(tail, prefix, more); }
          Grep(tail, prefix + more);
          == { GrepSingle(e, prefix + more); GrepAppend([e], tail, prefix + more); }
          Grep(entries, prefix + more);
        }
      }
    }
  }

  /** Grepping a listing made of two parts greps each part in turn. */
  lemma GrepAppend(entries: seq<string>, more: seq<string>, prefix: string)
    ensures Grep(entries + more, prefix) == Grep(entries, prefix) + Grep(more, prefix)
  {
    SelectAppend(entries, more, e => StartsWith(e, ResourcePrefix + prefix));
  }

  /** Grepping a single entry keeps it exactly when it starts with `namespace/<prefix>`. */
  lemma GrepSingle(e: string, prefix: string)
    ensures Grep([e], prefix) == if StartsWith(e, ResourcePrefix + prefix) then [e] else []
  {
    assert [e][1..] == [];
  }

  /** Grepping with an empty prefix keeps a listing whose every entry is a `namespace/` entry whole. */
  lemma {:induction false} GrepEmptyPrefix(entries: seq<string>)
    requires forall e :: e in entries ==> StartsWith(e, ResourcePrefix)
    ensures Grep(entries, "") == entries
  {
    if entries != [] {
      assert entries == [entries[0]] + entries[1..];
      GrepExact([entries[0]], entries[1..], "");
      assert ResourcePrefix + "" == ResourcePrefix;
      GrepEmptyPrefix(entries[1..]);
    }
  }

  /** A grepped entry is `namespace/` followed by its name, and that name starts with the prefix. */
  lemma GrepNames(entries: seq<string>, prefix: string, e: string)
    requires e in Grep(entries, prefix)
    ensures e in entries && e == ResourcePrefix + Name(e) && StartsWith(Name(e), prefix)
  {
    StartsWithConcat(e, ResourcePrefix, prefix);
  }

  /** A name is among the bare names of a listing exactly when some entry of the listing has it. */
  lemma NamesMember(entries: seq<string>, n: string)
    ensures n in Names(entries) <==> exists e :: e in entries && Name(e) == n
  {
    MapMember(entries, Name, n);
  }
}
