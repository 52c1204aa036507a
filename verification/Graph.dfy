/** A project's graph state and the part of it a checkpoint keeps. */
module Graph {
  /** A registry project id. */
  type Id = string

  /** A project's output directory. */
  type Dir = string

  /** The content of one facet of a state; only its identity matters here. */
  type Facet = int

  const EMPTY: Facet := 0

  datatype GraphState = GraphState(
    graph: Facet, partition: Facet, reverse: Facet, manifest: Facet,
    workspace: Facet, exports: Facet, symbols: Facet, symbolIndex: Facet)

  const DEFAULT := GraphState(EMPTY, EMPTY, EMPTY, EMPTY, EMPTY, EMPTY, EMPTY, EMPTY)

  /** What survives a save and a load: the two symbol tables are never persisted. */
  function Erase(s: GraphState): GraphState {
    s.(symbols := EMPTY, symbolIndex := EMPTY)
  }

  /** `x` is `y`, or `y` after a trip through a checkpoint. */
  predicate Agrees(x: GraphState, y: GraphState) {
    x == y || x == Erase(y)
  }
}
