/**
 * Field functions and global parameters as the macros create them: an
 * ordered list of entries, each with an identifier and a definition that
 * names other quantities through `${name}` tokens. The definition is kept
 * as a list of tokens; `Render` gives the text handed to the solver and
 * `ScanRefs` reads the `${name}` references back out of such text.
 */
module FieldFunctions {

  /** A piece of definition text: a `${name}` reference or literal text. */
  datatype Token = Ref(name: string) | Text(text: string)

  type Definition = seq<Token>

  /** Physical dimensions a field function is declared with; `Unspecified` when the macro sets none. */
  datatype Dimensions = Unspecified | Dimensionless | Reactivity

  datatype EntryKind = GlobalParameter | UserFieldFunction

  /** One created global parameter or user field function. */
  datatype Entry = Entry(kind: EntryKind, presentationName: string, id: string, definition: Definition, dimensions: Dimensions)

  function RenderToken(t: Token): string
  {
    match t
    case Ref(name) => "${" + name + "}"
    case Text(text) => text
  }

  /** The definition text the solver receives. */
  function Render(d: Definition): string
  {
    if d == [] then "" else RenderToken(d[0]) + Render(d[1..])
  }

  /** The names a definition refers to, in order of appearance. */
  function RefNames(d: Definition): seq<string>
  {
    if d == [] then [] else (if d[0].Ref? then [d[0].name] else []) + RefNames(d[1..])
  }

  /** A token whose text cannot be mistaken for part of a reference. */
  predicate WellFormedToken(t: Token)
  {
    match t
    case Ref(name) => '}' !in name
    case Text(text) => '$' !in text
  }

  predicate WellFormed(d: Definition)
  {
    forall t <- d :: WellFormedToken(t)
  }

  /** Position of the first `}` in `s` at or after `i`, or `|s|` when there is none. */
  function CloseIndex(s: string, i: nat): (k: nat)
    requires i <= |s|
    ensures i <= k <= |s|
    ensures k < |s| ==> s[k] == '}'
    ensures forall j :: i <= j < k ==> s[j] != '}'
    decreases |s| - i
  {
    if i == |s| || s[i] == '}' then i else CloseIndex(s, i + 1)
  }

  /** The names of all `${name}` references in a definition text, in order; an unclosed `${` ends the scan. */
  function ScanRefs(s: string): (names: seq<string>)
    ensures forall n <- names :: '}' !in n
    decreases |s|
  {
    if |s| < 2 then []
    else if s[0] == '$' && s[1] == '{' then
      var k := CloseIndex(s, 2);
      if k == |s| then [] else [s[2..k]] + ScanRefs(s[k + 1..])
    else ScanRefs(s[1..])
  }

  lemma {:induction false} ScanRefsSkipsText(text: string, rest: string)
    requires '$' !in text
    ensures ScanRefs(text + rest) == ScanRefs(rest)
  {
    if text != [] {
      var s := text + rest;
      assert s[1..] == text[1..] + rest;
      ScanRefsSkipsText(text[1..], rest);
      if |s| < 2 {
        assert rest == [];
        assert text[1..] + rest == [];
      }
    } else {
      assert text + rest == rest;
    }
  }

  lemma ScanRefsReadsRef(name: string, rest: string)
    requires '}' !in name
    ensures ScanRefs("${" + name + "}" + rest) == [name] + ScanRefs(rest)
  {
    var s := "${" + name + "}" + rest;
    var k := |name| + 2;
    assert s[0] == '$' && s[1] == '{';
    assert s[k] == '}';
    assert forall j :: 2 <= j < k ==> s[j] == name[j - 2];
    assert CloseIndex(s, 2) == k;
    assert s[2..k] == name;
    assert s[k + 1..] == rest;
  }

  /** Reading the references back out of a rendered definition gives exactly its `Ref` names. */
  lemma {:induction false} ScanRefsOfRender(d: Definition)
    requires WellFormed(d)
    ensures ScanRefs(Render(d)) == RefNames(d)
  {
    if d == [] {
    } else {
      ScanRefsOfRender(d[1..]);
      assert WellFormedToken(d[0]);
      match d[0]
      case Ref(name) =>
        assert Render(d) == "${" + name + "}" + Render(d[1..]);
        ScanRefsReadsRef(name, Render(d[1..]));
      case Text(text) =>
        ScanRefsSkipsText(text, Render(d[1..]));
    }
  }

  /** The identifiers the entries of `t` define. */
  function Ids(t: seq<Entry>): set<string>
  {
    if t == [] then {} else {t[0].id} + Ids(t[1..])
  }

  lemma {:induction false} IdsMembership(t: seq<Entry>, n: string)
    ensures n in Ids(t) <==> exists i :: 0 <= i < |t| && t[i].id == n
  {
    if t != [] {
      IdsMembership(t[1..], n);
      if exists i :: 0 <= i < |t[1..]| && t[1..][i].id == n {
        var i :| 0 <= i < |t[1..]| && t[1..][i].id == n;
        assert t[i + 1] == t[1..][i];
      }
      if exists i :: 0 <= i < |t| && t[i].id == n {
        var i :| 0 <= i < |t| && t[i].id == n;
        if i > 0 { assert t[1..][i - 1] == t[i]; }
      }
    }
  }

  /** Every reference token of `d` names one of the `known` quantities. */
  predicate ResolvesIn(d: Definition, known: set<string>)
  {
    forall i | 0 <= i < |d| && d[i].Ref? :: d[i].name in known
  }

  lemma {:induction false} RefNamesMembership(d: Definition, n: string)
    ensures n in RefNames(d) <==> exists i :: 0 <= i < |d| && d[i].Ref? && d[i].name == n
  {
    if d != [] {
      RefNamesMembership(d[1..], n);
      if exists i :: 0 <= i < |d[1..]| && d[1..][i].Ref? && d[1..][i].name == n {
        var i :| 0 <= i < |d[1..]| && d[1..][i].Ref? && d[1..][i].name == n;
        assert d[i + 1] == d[1..][i];
      }
      if exists i :: 0 <= i < |d| && d[i].Ref? && d[i].name == n {
        var i :| 0 <= i < |d| && d[i].Ref? && d[i].name == n;
        if i > 0 { assert d[1..][i - 1] == d[i]; }
      }
    }
  }

  /** `ResolvesIn` speaks about exactly the names `RefNames` lists. */
  lemma ResolvesInRefNames(d: Definition, known: set<string>)
    ensures ResolvesIn(d, known) <==> forall n <- RefNames(d) :: n in known
  {
    forall n ensures n in RefNames(d) <==> exists i :: 0 <= i < |d| && d[i].Ref? && d[i].name == n {
      RefNamesMembership(d, n);
    }
  }

  /**
   * In creation order, every reference of every entry names one of the
   * `given` quantities (scalars, solver built-ins) or an entry created
   * earlier.
   */
  ghost predicate CreatedInOrder(t: seq<Entry>, given: set<string>)
  {
    forall i, n | 0 <= i < |t| && n in RefNames(t[i].definition) ::
      n in given || exists j :: 0 <= j < i && t[j].id == n
  }

  /** No entry takes the name of one of the `given` quantities. */
  predicate Fresh(t: seq<Entry>, given: set<string>)
  {
    forall i | 0 <= i < |t| :: t[i].id !in given
  }

  lemma {:induction false} IdsAppend(a: seq<Entry>, b: seq<Entry>)
    ensures Ids(a + b) == Ids(a) + Ids(b)
  {
    if a == [] {
      assert a + b == b;
    } else {
      assert (a + b)[1..] == a[1..] + b;
      IdsAppend(a[1..], b);
    }
  }

  /**
   * The table built one creation at a time, starting from the `known`
   * quantities: each entry only names quantities known at that point, and
   * becomes known itself once created.
   */
  predicate Ledger(t: seq<Entry>, known: set<string>)
  {
    t == [] || (ResolvesIn(t[0].definition, known) && Ledger(t[1..], known + {t[0].id}))
  }

  /** Knowing more never breaks a ledger. */
  lemma {:induction false} LedgerMono(t: seq<Entry>, known: set<string>, more: set<string>)
    requires Ledger(t, known) && known <= more
    ensures Ledger(t, more)
  {
    if t != [] {
      LedgerMono(t[1..], known + {t[0].id}, more + {t[0].id});
    }
  }

  /** Creating one group of entries after another. */
  lemma {:induction false} LedgerAppend(a: seq<Entry>, b: seq<Entry>, known: set<string>)
    requires Ledger(a, known) && Ledger(b, known + Ids(a))
    ensures Ledger(a + b, known) && Ids(a + b) == Ids(a) + Ids(b)
  {
    IdsAppend(a, b);
    if a == [] {
      assert a + b == b;
      assert known + Ids(a) == known;
    } else {
      assert (a + b)[1..] == a[1..] + b;
      assert known + {a[0].id} + Ids(a[1..]) == known + Ids(a);
      LedgerAppend(a[1..], b, known + {a[0].id});
    }
  }

  /** A group that only names `needs` continues any ledger whose known quantities include them. */
  lemma LedgerThen(a: seq<Entry>, b: seq<Entry>, known: set<string>, needs: set<string>)
    requires Ledger(a, known) && Ledger(b, needs) && needs <= known + Ids(a)
    ensures Ledger(a + b, known)
  {
    LedgerMono(b, needs, known + Ids(a));
    LedgerAppend(a, b, known);
  }

  lemma {:induction false} OrderSnoc(init: seq<Entry>, e: Entry, given: set<string>)
    requires CreatedInOrder(init, given)
    requires forall n <- RefNames(e.definition) :: n in given || exists j :: 0 <= j < |init| && init[j].id == n
    ensures CreatedInOrder(init + [e], given)
  {
    var u := init + [e];
    forall i, n | 0 <= i < |u| && n in RefNames(u[i].definition)
      ensures n in given || exists j :: 0 <= j < i && u[j].id == n
    {
      if i < |init| {
        assert u[i] == init[i];
        if n !in given {
          var j :| 0 <= j < i && init[j].id == n;
          assert u[j] == init[j];
        }
      } else if n !in given {
        var j :| 0 <= j < |init| && init[j].id == n;
        assert u[j] == init[j];
      }
    }
  }

  /** One creation step keeps the table in creation order. */
  lemma CreateOne(earlier: seq<Entry>, e: Entry, given: set<string>)
    requires CreatedInOrder(earlier, given)
    requires ResolvesIn(e.definition, given + Ids(earlier))
    ensures CreatedInOrder(earlier + [e], given)
    ensures Ids(earlier + [e]) == Ids(earlier) + {e.id}
  {
    ResolvesInRefNames(e.definition, given + Ids(earlier));
    forall n ensures n in Ids(earlier) <==> exists j :: 0 <= j < |earlier| && earlier[j].id == n {
      IdsMembership(earlier, n);
    }
    OrderSnoc(earlier, e, given);
    IdsAppend(earlier, [e]);
    assert Ids([e]) == {e.id};
  }

  /** A ledger continuing the entries `earlier` keeps them in creation order. */
  lemma {:induction false} LedgerAfter(earlier: seq<Entry>, t: seq<Entry>, given: set<string>)
    requires CreatedInOrder(earlier, given)
    requires Ledger(t, given + Ids(earlier))
    ensures CreatedInOrder(earlier + t, given)
    decreases |t|
  {
    if t == [] {
      assert earlier + t == earlier;
    } else {
      CreateOne(earlier, t[0], given);
      var u := earlier + [t[0]];
      assert given + Ids(u) == given + Ids(earlier) + {t[0].id};
      LedgerAfter(u, t[1..], given);
      assert u + t[1..] == earlier + t;
    }
  }

  /** A ledger started from the given quantities is a table created in order. */
  lemma LedgerMeans(t: seq<Entry>, given: set<string>)
    requires Ledger(t, given)
    ensures CreatedInOrder(t, given)
  {
    assert given + Ids([]) == given;
    LedgerAfter([], t, given);
    assert [] + t == t;
  }

  lemma FreshAppend(a: seq<Entry>, b: seq<Entry>, given: set<string>)
    ensures Fresh(a + b, given) <==> Fresh(a, given) && Fresh(b, given)
  {
    if Fresh(a + b, given) {
      forall i | 0 <= i < |a| ensures a[i].id !in given {
        assert (a + b)[i] == a[i];
      }
      forall i | 0 <= i < |b| ensures b[i].id !in given {
        assert (a + b)[|a| + i] == b[i];
      }
    }
    if Fresh(a, given) && Fresh(b, given) {
      forall i | 0 <= i < |a + b| ensures (a + b)[i].id !in given {
        if i >= |a| { assert (a + b)[i] == b[i - |a|]; }
      }
    }
  }
}
