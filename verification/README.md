# Block tree renderer of the webshape page builder, in Dafny

The page builder keeps an ordered list of *blocks* in component state and
renders it on every change. A block is either a **container** (`div` or
`section`) holding child blocks, or a **content** block (`p`, `h1`, `h2` or
`img`) holding a `data` string. Every block has an `id` and a `classList`.
The renderer `generateJSX` turns each block into one element descriptor. The
descriptor's tag is the block's `type`. Its props are the class list joined by
single spaces (`className`) and the id, given twice (`key` and
`data-block-id`). Its body is the rendered children or the text `data`. Two
user actions change the state. `addBlock` appends one fixed paragraph, and
`importFromDb` appends a hardcoded mock payload.

The project has four modules:

- `Strings` (`strings.dfy`): `Join` models `Array.prototype.join`. Its inverse
  `Split`/`ClassTokens` takes the nonempty space-separated runs of a class
  string, which recovers the classes that were joined.
- `Blocks` (`blocks.dfy`): the two tag enumerations, their string values, and
  the `Block` datatype. It also proves that the renderer's membership test
  classifies every block into its own variant.
- `Render` (`render.dfy`): the `Element` descriptor and `Render`
  (`generateJSX`). Its inverse `ParseElements` reads descriptors back into
  blocks. `ParseRender` proves that rendering a well-formed tree loses nothing.
- `App` (`app.dfy`): `DefaultBlocks`, `DbBlocks` (the parsed mock payload),
  `AddBlock` and `ImportFromDb`. It also has lemmas about any run of user
  actions.

"Well-formed" means that every class in the tree is nonempty and contains no
space. Without this, `join(' ')` is lossy: `["a b"]` and `["a", "b"]` give the
same string. `JoinIsLossy` and `RenderIsLossyOnEmptyClass` exhibit this. Both
state updates keep the tree well-formed, so every state reachable from the
default blocks renders losslessly.

Calling `Render` twice on equal input gives equal output: every Dafny function
has this property. This is the renderer's referential transparency.

## Model

| member | source | states |
|---|---|---|
| Strings.Join | src/App.tsx:92 | `classList.join(' ')`: an empty list gives `""` and a single class gives itself. The result starts with the first class, and its length is the sum of the class lengths plus one separator between each pair of neighbours. |
| Strings.JoinSnoc | src/App.tsx:92 | Joining a list with one more class appends the separator and that class to the previous result. |
| Strings.JoinExamples | src/App.tsx:92 | `[]` gives `""`, `['bg-red-400']` gives `"bg-red-400"`, and `['text-lg','font-bold']` gives `"text-lg font-bold"`. |
| Strings.JoinIsLossy | src/App.tsx:92 | The joined string does not determine the class list when a class contains a space or is empty. |
| Strings.SplitJoin | src/App.tsx:92 | Splitting on a one-character separator undoes joining with it, for a nonempty list whose parts do not contain the separator. |
| Strings.ClassTokensOfJoin | src/App.tsx:92 | The class string reads back as exactly the original class list whenever every class is nonempty and space-free. This includes the empty list. |
| Blocks.ParseContainerType | src/App.tsx:32-35 | A string is a container type exactly when it is one of `Object.values(HtmlContainerTypes)`, and that value is its name. |
| Blocks.ParseContentType | src/App.tsx:36-41 | A string is a content type exactly when it is one of `Object.values(HtmlContentTypes)`, and that value is its name. |
| Blocks.TagSetsDisjoint | src/App.tsx:32-41 | No value belongs to both tag enumerations. |
| Blocks.TagNamesRoundTrip | src/App.tsx:32-41 | Every tag's string reads back as that same tag, and never as a tag of the other enumeration. |
| Blocks.ContainerTestClassifies | src/App.tsx:87-89 | The test "is `type` among the container enumeration's values" is true exactly for container blocks, and every block's `type` lies in one of the two sets. |
| Render.RenderBlock | src/App.tsx:86-103 | The element's tag is the block's `type` and is one of the six tag names. `key` and `data-block-id` are both the block's id, and `className` is the joined class list. The body holds children exactly for a container block, and those children are the rendering of the block's children. A content block's body is its `data`, unchanged. |
| Render.Render | src/App.tsx:85-105 | The output has as many elements as there are blocks. Element i is the rendering of block i, so nothing is reordered or filtered. |
| Render.RenderAppend | src/App.tsx:85-86 | Rendering a concatenation of block lists gives the concatenation of their renderings. |
| Render.RenderNestedExample | src/App.tsx:97-103 | A `div` holding one paragraph "hi" renders as a `div` element whose only child is a `p` element with payload "hi". |
| Render.RenderIsLossyOnEmptyClass | src/App.tsx:91-95 | A block with no classes and a block whose only class is `""` render to the same element. |
| Render.ParseElement | src/App.tsx:97-103 | When reading an element back succeeds, the block's `type` is the element's tag and its id is the element's `key`. |
| Render.ParseElements | src/App.tsx:85-86 | When reading a sequence of elements back succeeds, it gives one block per element. |
| Render.ParseRenderBlock | src/App.tsx:86-103 | Reading back a well-formed block's element gives that block. |
| Render.ParseRender | src/App.tsx:85-105 | Reading back the rendering of a well-formed block sequence gives exactly that sequence: every id, class list, tag, child and payload is recovered. |
| Render.RenderInjective | src/App.tsx:85-105 | Two well-formed block sequences with equal renderings are equal. |
| App.AddBlock | src/App.tsx:132-140 | The new state is the old state followed by exactly one block. That block is a `p` content block with the given id, data "Woot a new one boi" and classes `['bg-blue-100']`. The existing blocks are unchanged. |
| App.ImportFromDb | src/App.tsx:142-147 | The new state is the old state, unchanged, followed by the mock payload in its original order. Its length grows by the payload's length. |
| App.RunOnlyAppends | src/App.tsx:132-147 | Any run of add and import actions keeps the starting state as a prefix. The state grows by one block per add and by the payload's length per import. |
| App.RunPreservesWellFormed | src/App.tsx:132-147 | Neither action introduces an empty or space-containing class. |
| App.ReachableStatesRenderLosslessly | src/App.tsx:107-147 | Every state reachable from `defaultBlocks` renders to elements that read back as that state. |
| App.RenderAfterAdd | src/App.tsx:133-139 | After an add, the rendered page is the old rendering followed by one `p` element. Its class is `bg-blue-100`, its key and block id are the new id, and its text is "Woot a new one boi". |
| App.RenderAfterImport | src/App.tsx:8-26 | After an import, the rendered page is the old rendering followed by the payload's `div` element and its two `p` children. The second child's class string is "text-lg font-bold". |
| App.ImportDuplicatesIds | src/App.tsx:7-27 | Importing into the default state gives the ids "1018493", "342423", "1112222", "newwwww", "342423", "1112222" in document order, so ids are not unique. |

## Left out

- React's `createElement`, JSX, `useState`/`useEffect` and the click handlers are not modelled. The element descriptor is the `Element` datatype. `setBlocks(f)` is the application of the pure update (`AddBlock`, `ImportFromDb`) to the state, and `Run` applies a sequence of them.
- `JSON.stringify`/`JSON.parse` of the mock payload are not modelled. They are library calls with no schema check. `DbBlocks` is the parsed payload, written as a constant.
- `nanoid()` is a random external generator. The new id is a parameter of `AddBlock`.
- Global id uniqueness is not proved, because the code does not keep it. `ImportDuplicatesIds` shows a duplicate.
- Blocks whose `type` is in neither enumeration are not modelled. Only the unchecked JSON import can produce them. The model's tags are typed enumerations, so such blocks cannot be represented. Rendering therefore has no error case. An unknown tag appears only when reading an element back, where `ParseElement` returns `None`.
- What React DOM does with an element is not modelled. A content block of type `img` becomes `createElement('img', props, data)`, and React DOM rejects any child on that void element, so such a block is never displayed. The model's `Element("img", …, Text(data))` describes only what `generateJSX` returns.
- The `console.log` calls in `importFromDb` and the unused `block?` parameter of `addBlock` are not modelled.
