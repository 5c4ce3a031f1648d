/**
 * The parent / sub-item / content tree that both bill modifiers build
 * (`ParentItem`, `SubItem`), the three ways a parser grows it, and its
 * flattening back into lines.
 */
module BillTree {

  datatype SubItem = SubItem(title: string, contents: seq<string>)
  datatype ParentItem = ParentItem(title: string, subs: seq<SubItem>)

  /** The title given to the parent created for a sub-item that has none. */
  const DefaultParent := "Default Parent"

  /** A new parent with no sub-items. */
  function AddParent(ps: seq<ParentItem>, title: string): seq<ParentItem> {
    ps + [ParentItem(title, [])]
  }

  /** A new sub-item under the last parent, creating the default parent when there is none. */
  function AddSub(ps: seq<ParentItem>, title: string): (r: seq<ParentItem>)
    ensures r != [] && Last(r).subs != [] && Last(Last(r).subs) == SubItem(title, [])
    ensures |r| == if ps == [] then 1 else |ps|
  {
    if ps == [] then [ParentItem(DefaultParent, [SubItem(title, [])])]
    else
      var p := Last(ps);
      ps[..|ps| - 1] + [p.(subs := p.subs + [SubItem(title, [])])]
  }

  /** A content line appended to the last sub-item of the last parent. */
  function AddContent(ps: seq<ParentItem>, line: string): (r: seq<ParentItem>)
    requires ps != [] && Last(ps).subs != []
    ensures r != [] && Last(r).subs != [] && |r| == |ps|
  {
    var p := Last(ps);
    var s := Last(p.subs);
    ps[..|ps| - 1] + [p.(subs := p.subs[..|p.subs| - 1] + [s.(contents := s.contents + [line])])]
  }

  function Last<T>(s: seq<T>): T
    requires s != []
  {
    s[|s| - 1]
  }

  function FlattenSubs(subs: seq<SubItem>): seq<string>
    decreases |subs|
  {
    if subs == [] then []
    else FlattenSubs(subs[..|subs| - 1]) + [Last(subs).title] + Last(subs).contents
  }

  /** Titles and contents in document order. */
  function Flatten(ps: seq<ParentItem>): seq<string>
    decreases |ps|
  {
    if ps == [] then []
    else Flatten(ps[..|ps| - 1]) + [Last(ps).title] + FlattenSubs(Last(ps).subs)
  }

  function SubContents(subs: seq<SubItem>): seq<string>
    decreases |subs|
  {
    if subs == [] then [] else SubContents(subs[..|subs| - 1]) + Last(subs).contents
  }

  /** Every content line, in document order. */
  function AllContents(ps: seq<ParentItem>): seq<string>
    decreases |ps|
  {
    if ps == [] then [] else AllContents(ps[..|ps| - 1]) + SubContents(Last(ps).subs)
  }

  lemma {:induction false} FlattenSnoc(ps: seq<ParentItem>, p: ParentItem)
    ensures Flatten(ps + [p]) == Flatten(ps) + [p.title] + FlattenSubs(p.subs)
  {
    assert (ps + [p])[..|ps|] == ps;
  }

  lemma {:induction false} FlattenSubsSnoc(subs: seq<SubItem>, s: SubItem)
    ensures FlattenSubs(subs + [s]) == FlattenSubs(subs) + [s.title] + s.contents
  {
    assert (subs + [s])[..|subs|] == subs;
  }

  lemma {:induction false} FlattenAddParent(ps: seq<ParentItem>, title: string)
    ensures Flatten(AddParent(ps, title)) == Flatten(ps) + [title]
  {
    FlattenSnoc(ps, ParentItem(title, []));
  }

  /** Opening a sub-item adds its title, after the default parent's title when one is created. */
  lemma {:induction false} FlattenAddSub(ps: seq<ParentItem>, title: string)
    ensures Flatten(AddSub(ps, title)) == Flatten(ps) + (if ps == [] then [DefaultParent] else []) + [title]
  {
    if ps == [] {
      FlattenSnoc([], ParentItem(DefaultParent, [SubItem(title, [])]));
      FlattenSubsSnoc([], SubItem(title, []));
    } else {
      var front := ps[..|ps| - 1];
      var p := Last(ps);
      assert ps == front + [p];
      FlattenSnoc(front, p);
      FlattenSnoc(front, p.(subs := p.subs + [SubItem(title, [])]));
      FlattenSubsSnoc(p.subs, SubItem(title, []));
    }
  }

  /** Adding a content line adds exactly that line at the end. */
  lemma {:induction false} FlattenAddContent(ps: seq<ParentItem>, line: string)
    requires ps != [] && Last(ps).subs != []
    ensures Flatten(AddContent(ps, line)) == Flatten(ps) + [line]
  {
    var front := ps[..|ps| - 1];
    var p := Last(ps);
    var s := Last(p.subs);
    var sfront := p.subs[..|p.subs| - 1];
    assert ps == front + [p];
    assert p.subs == sfront + [s];
    FlattenSnoc(front, p);
    FlattenSnoc(front, p.(subs := sfront + [s.(contents := s.contents + [line])]));
    SubsAddContent(sfront, s, line);
  }

  lemma {:induction false} SubsAddContent(front: seq<SubItem>, s: SubItem, line: string)
    ensures FlattenSubs(front + [s.(contents := s.contents + [line])]) == FlattenSubs(front + [s]) + [line]
  {
    FlattenSubsSnoc(front, s);
    FlattenSubsSnoc(front, s.(contents := s.contents + [line]));
  }

  /** The parent titles in order. */
  function Titles(ps: seq<ParentItem>): seq<string>
    decreases |ps|
  {
    if ps == [] then [] else Titles(ps[..|ps| - 1]) + [Last(ps).title]
  }

  lemma {:induction false} TitlesSnoc(ps: seq<ParentItem>, p: ParentItem)
    ensures Titles(ps + [p]) == Titles(ps) + [p.title]
  {
    assert (ps + [p])[..|ps|] == ps;
  }

  lemma {:induction false} TitlesAddSub(ps: seq<ParentItem>, title: string)
    requires ps != []
    ensures Titles(AddSub(ps, title)) == Titles(ps)
  {
    var front := ps[..|ps| - 1];
    assert ps == front + [Last(ps)];
    TitlesSnoc(front, Last(ps));
    TitlesSnoc(front, AddSub(ps, title)[|ps| - 1]);
    assert AddSub(ps, title) == front + [AddSub(ps, title)[|ps| - 1]];
  }

  lemma {:induction false} TitlesAddContent(ps: seq<ParentItem>, line: string)
    requires ps != [] && Last(ps).subs != []
    ensures Titles(AddContent(ps, line)) == Titles(ps)
  {
    var front := ps[..|ps| - 1];
    assert ps == front + [Last(ps)];
    TitlesSnoc(front, Last(ps));
    TitlesSnoc(front, AddContent(ps, line)[|ps| - 1]);
    assert AddContent(ps, line) == front + [AddContent(ps, line)[|ps| - 1]];
  }
}
