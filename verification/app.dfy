/**
 The hosting component's state: the initial blocks, the mock database payload,
 and the two state updates `addBlock` and `importFromDb`. Each update is the
 pure function handed to `setBlocks`; the fresh id that `nanoid()` would
 produce is a parameter.
 */
module App {

  import opened Blocks
  import Render
  import Strings

  /** `DB_BLOCKS` after `JSON.parse`: one `div` holding two paragraphs. */
  const DbBlocks: seq<Block> := [
    Container("newwwww", ["bg-green-400"], Div, [
      Content("342423", [], P, "Database stuff"),
      Content("1112222", ["text-lg", "font-bold"], P, "Air horn")
    ])
  ]

  /** `defaultBlocks`: the state the component starts with. */
  const DefaultBlocks: seq<Block> := [
    Container("1018493", ["bg-red-400"], Div, [
      Content("342423", [], P, "This is a test"),
      Content("1112222", [], P, "This is another paragraph yo")
    ])
  ]

  const NewBlockData: string := "Woot a new one boi"
  const NewBlockClass: string := "bg-blue-100"

  /** `addBlock`: appends one paragraph block with the fixed text and class. */
  function AddBlock(state: seq<Block>, newId: string): (r: seq<Block>)
    ensures |r| == |state| + 1
    ensures r[..|state|] == state
    ensures r[|state|].Content? && r[|state|].contentType == P
    ensures r[|state|].id == newId
    ensures r[|state|].data == "Woot a new one boi"
    ensures r[|state|].classList == ["bg-blue-100"]
  {
    state + [Content(newId, [NewBlockClass], P, NewBlockData)]
  }

  /** `importFromDb`: appends the parsed payload after the current blocks. */
  function ImportFromDb(state: seq<Block>): (r: seq<Block>)
    ensures |r| == |state| + |DbBlocks|
    ensures r[..|state|] == state
    ensures r[|state|..] == DbBlocks
  {
    state + DbBlocks
  }

  /** The two things a user can do. */
  datatype Action = Add(newId: string) | Import

  function Step(state: seq<Block>, a: Action): seq<Block>
  {
    match a
    case Add(newId) => AddBlock(state, newId)
    case Import => ImportFromDb(state)
  }

  /** The state after the actions, in order, starting from `state`. */
  function Run(state: seq<Block>, actions: seq<Action>): seq<Block>
    decreases |actions|
  {
    if |actions| == 0 then state
    else Run(Step(state, actions[0]), actions[1..])
  }

  function CountAdds(actions: seq<Action>): nat
  {
    if |actions| == 0 then 0
    else (if actions[0].Add? then 1 else 0) + CountAdds(actions[1..])
  }

  /** The blocks are only ever appended to: any run keeps the state it started
      from as a prefix, and grows by one per add and by the payload per import. */
  lemma {:induction false} RunOnlyAppends(state: seq<Block>, actions: seq<Action>)
    ensures |Run(state, actions)| ==
      |state| + CountAdds(actions) + (|actions| - CountAdds(actions)) * |DbBlocks|
    ensures Run(state, actions)[..|state|] == state
    decreases |actions|
  {
    if |actions| > 0 {
      var next := Step(state, actions[0]);
      RunOnlyAppends(next, actions[1..]);
      assert next[..|state|] == state;
      assert Run(state, actions)[..|state|] == Run(next, actions[1..])[..|next|][..|state|];
    }
  }

  /** Both updates keep every class token nonempty and space-free, so the
      rendered state can always be read back. */
  lemma {:induction false} RunPreservesWellFormed(state: seq<Block>, actions: seq<Action>)
    requires WellFormedBlocks(state)
    ensures WellFormedBlocks(Run(state, actions))
    decreases |actions|
  {
    if |actions| > 0 {
      var next := Step(state, actions[0]);
      assert WellFormedBlocks(DbBlocks) by {
        assert WellFormedBlocks(DbBlocks[0].children);
      }
      match actions[0] {
        case Add(newId) =>
          assert WellFormedBlock(Content(newId, [NewBlockClass], P, NewBlockData));
        case Import =>
      }
      assert WellFormedBlocks(next);
      RunPreservesWellFormed(next, actions[1..]);
    }
  }

  /** Every state reachable from the default blocks renders losslessly. */
  lemma ReachableStatesRenderLosslessly(actions: seq<Action>)
    ensures Render.ParseElements(Render.Render(Run(DefaultBlocks, actions))) ==
      Some(Run(DefaultBlocks, actions))
  {
    assert WellFormedBlocks(DefaultBlocks) by {
      assert WellFormedBlocks(DefaultBlocks[0].children);
    }
    RunPreservesWellFormed(DefaultBlocks, actions);
    Render.ParseRender(Run(DefaultBlocks, actions));
  }

  /** After `addBlock` the rendered page is the old one followed by one
      paragraph element carrying the new id and the fixed class and text. */
  lemma RenderAfterAdd(state: seq<Block>, newId: string)
    ensures Render.Render(AddBlock(state, newId)) == Render.Render(state) +
      [Render.Element("p", Render.Props("bg-blue-100", newId, newId),
                      Render.Text("Woot a new one boi"))]
  {
  }

  /** After `importFromDb` the rendered page is the old one followed by the
      payload's `div` with its two paragraphs; the multi-class paragraph gets
      the class string "text-lg font-bold". */
  lemma RenderAfterImport(state: seq<Block>)
    ensures Render.Render(ImportFromDb(state)) == Render.Render(state) + [
      Render.Element("div", Render.Props("bg-green-400", "newwwww", "newwwww"),
        Render.Children([
          Render.Element("p", Render.Props("", "342423", "342423"),
                         Render.Text("Database stuff")),
          Render.Element("p", Render.Props("text-lg font-bold", "1112222", "1112222"),
                         Render.Text("Air horn"))
        ]))
    ]
  {
    Render.RenderAppend(state, DbBlocks);
    var children := DbBlocks[0].children;
    assert Strings.Join(children[1].classList, " ") == "text-lg font-bold";
    assert Render.Render(children) ==
      [Render.RenderBlock(children[0]), Render.RenderBlock(children[1])];
    assert Render.Render(DbBlocks) == [Render.RenderBlock(DbBlocks[0])];
  }

  /** Every id in the blocks and their descendants, in document order. */
  function Ids(bs: seq<Block>): seq<string>
    decreases bs
  {
    if |bs| == 0 then []
    else
      (match bs[0]
       case Container(id, _, _, children) => [id] + Ids(children)
       case Content(id, _, _, _) => [id])
      + Ids(bs[1..])
  }

  /** Ids are not kept unique: importing into the default state yields two
      blocks with id "342423" (and two with id "1112222"). */
  lemma ImportDuplicatesIds()
    ensures Ids(ImportFromDb(DefaultBlocks)) ==
      ["1018493", "342423", "1112222", "newwwww", "342423", "1112222"]
  {
  }
}
