/**
 Merging artifact updates into a Task (internal/hub/service.go, mergeArtifact), and what a whole
 sequence of updates amounts to: a separate fold for each artifact ID.
 */
module ArtifactMerge {
  import opened Wrappers
  import opened Model

  function Updated(current: Artifact, u: ArtifactUpdate): Artifact {
    if u.append then
      current.(parts := current.parts + u.artifact.parts,
               complete := u.artifact.complete,
               name := if u.artifact.name != "" then u.artifact.name else current.name,
               description := if u.artifact.description != "" then u.artifact.description else current.description)
    else u.artifact
  }

  /** The first artifact with the ID, or the length of the list. */
  function IndexOf(artifacts: seq<Artifact>, id: string): (i: nat)
    ensures i <= |artifacts|
    ensures forall k :: 0 <= k < i ==> artifacts[k].id != id
    ensures i < |artifacts| ==> artifacts[i].id == id
  {
    if artifacts == [] || artifacts[0].id == id then 0 else 1 + IndexOf(artifacts[1..], id)
  }

  /** Rewrites the first artifact of the update's ID, or adds one at the end. */
  function Merge(artifacts: seq<Artifact>, u: ArtifactUpdate): seq<Artifact> {
    var i := IndexOf(artifacts, u.artifact.id);
    if i == |artifacts| then artifacts + [u.artifact] else artifacts[i := Updated(artifacts[i], u)]
  }

  lemma IndexIsFirst(artifacts: seq<Artifact>, id: string, i: nat)
    requires i <= |artifacts| && (forall k :: 0 <= k < i ==> artifacts[k].id != id)
    requires i < |artifacts| ==> artifacts[i].id == id
    ensures IndexOf(artifacts, id) == i
  {
  }

  method MergeArtifact(artifacts: seq<Artifact>, u: ArtifactUpdate) returns (merged: seq<Artifact>)
    ensures merged == Merge(artifacts, u)
  {
    merged := artifacts;
    var i := 0;
    while i < |artifacts|
      invariant 0 <= i <= |artifacts| && merged == artifacts
      invariant forall k :: 0 <= k < i ==> artifacts[k].id != u.artifact.id
    {
      if merged[i].id != u.artifact.id {
        i := i + 1;
        continue;
      }
      IndexIsFirst(artifacts, u.artifact.id, i);
      var current := merged[i];
      if u.append {
        current := current.(parts := current.parts + u.artifact.parts, complete := u.artifact.complete);
        if u.artifact.name != "" {
          current := current.(name := u.artifact.name);
        }
        if u.artifact.description != "" {
          current := current.(description := u.artifact.description);
        }
      } else {
        current := u.artifact;
      }
      return merged[i := current];
    }
    IndexIsFirst(artifacts, u.artifact.id, i);
    merged := merged + [u.artifact];
  }

  function MergeAll(updates: seq<ArtifactUpdate>): seq<Artifact> {
    if updates == [] then []
    else Merge(MergeAll(updates[..|updates| - 1]), updates[|updates| - 1])
  }

  // The reference: what the updates of one ID amount to

  /** The updates of one artifact, in order. */
  function Of(updates: seq<ArtifactUpdate>, id: string): seq<ArtifactUpdate> {
    if updates == [] then []
    else
      var last := updates[|updates| - 1];
      Of(updates[..|updates| - 1], id) + if last.artifact.id == id then [last] else []
  }

  /** The artifact IDs, each where it first appears. */
  function FirstAppearances(updates: seq<ArtifactUpdate>): seq<string> {
    if updates == [] then []
    else
      var earlier := FirstAppearances(updates[..|updates| - 1]);
      var id := updates[|updates| - 1].artifact.id;
      if id in earlier then earlier else earlier + [id]
  }

  /** The artifact's last replacement, or its first update if it was never replaced. */
  function LiveStart(updates: seq<ArtifactUpdate>): (start: nat)
    requires updates != []
    ensures start < |updates| && (start == 0 || !updates[start].append)
    ensures forall k :: start < k < |updates| ==> updates[k].append
  {
    var last := |updates| - 1;
    if last == 0 || !updates[last].append then last else LiveStart(updates[..last])
  }

  function Live(updates: seq<ArtifactUpdate>): seq<ArtifactUpdate>
    requires updates != []
  {
    updates[LiveStart(updates)..]
  }

  function AllParts(updates: seq<ArtifactUpdate>): seq<Part> {
    if updates == [] then [] else AllParts(updates[..|updates| - 1]) + updates[|updates| - 1].artifact.parts
  }

  /** The last text that is not empty. */
  function LastText(updates: seq<ArtifactUpdate>, text: ArtifactUpdate -> string): string {
    if updates == [] then ""
    else if text(updates[|updates| - 1]) != "" then text(updates[|updates| - 1])
    else LastText(updates[..|updates| - 1], text)
  }

  const NameOf := (u: ArtifactUpdate) => u.artifact.name
  const DescriptionOf := (u: ArtifactUpdate) => u.artifact.description

  /** The artifact one ID's updates amount to. */
  function Folded(updates: seq<ArtifactUpdate>): Artifact
    requires updates != []
  {
    var live := Live(updates);
    Artifact(updates[0].artifact.id, LastText(live, NameOf), LastText(live, DescriptionOf),
             AllParts(live), updates[|updates| - 1].artifact.complete)
  }

  function IdsOf(artifacts: seq<Artifact>): seq<string> {
    seq(|artifacts|, i requires 0 <= i < |artifacts| => artifacts[i].id)
  }

  /** An update adds its ID at the end, unless it is there. */
  lemma MergeAddsId(artifacts: seq<Artifact>, u: ArtifactUpdate)
    ensures IdsOf(Merge(artifacts, u)) ==
            if u.artifact.id in IdsOf(artifacts) then IdsOf(artifacts) else IdsOf(artifacts) + [u.artifact.id]
  {
    var i := IndexOf(artifacts, u.artifact.id);
    if i < |artifacts| {
      assert IdsOf(artifacts)[i] == u.artifact.id;
    }
  }

  ghost predicate Distinct(ids: seq<string>) {
    forall i, j :: 0 <= i < j < |ids| ==> ids[i] != ids[j]
  }

  /** Artifact IDs stay distinct, in the order of their first appearance. */
  lemma {:induction false} IdsInFirstAppearanceOrder(updates: seq<ArtifactUpdate>)
    ensures IdsOf(MergeAll(updates)) == FirstAppearances(updates)
    ensures Distinct(FirstAppearances(updates))
  {
    if updates != [] {
      var n := |updates| - 1;
      IdsInFirstAppearanceOrder(updates[..n]);
      MergeAddsId(MergeAll(updates[..n]), updates[n]);
    }
  }

  lemma {:induction false} OfAppears(updates: seq<ArtifactUpdate>, id: string)
    ensures Of(updates, id) != [] <==> id in FirstAppearances(updates)
    ensures Of(updates, id) != [] ==> Of(updates, id)[0].artifact.id == id
  {
    if updates != [] {
      OfAppears(updates[..|updates| - 1], id);
    }
  }

  lemma LastTextOneMore(earlier: seq<ArtifactUpdate>, u: ArtifactUpdate, text: ArtifactUpdate -> string)
    ensures LastText(earlier + [u], text) == if text(u) != "" then text(u) else LastText(earlier, text)
    ensures AllParts(earlier + [u]) == AllParts(earlier) + u.artifact.parts
  {
    assert (earlier + [u])[..|earlier|] == earlier;
  }

  lemma FoldOneMore(earlier: seq<ArtifactUpdate>, u: ArtifactUpdate)
    requires earlier != [] && earlier[0].artifact.id == u.artifact.id
    ensures Folded(earlier + [u]) == Updated(Folded(earlier), u)
  {
    assert (earlier + [u])[..|earlier|] == earlier;
    if u.append {
      assert Live(earlier + [u]) == Live(earlier) + [u];
      LastTextOneMore(Live(earlier), u, NameOf);
      LastTextOneMore(Live(earlier), u, DescriptionOf);
    } else {
      FoldOne(u);
      assert Live(earlier + [u]) == [u] == Live([u]);
    }
  }

  lemma FoldOne(u: ArtifactUpdate)
    ensures Folded([u]) == u.artifact
  {
    LastTextOneMore([], u, NameOf);
    LastTextOneMore([], u, DescriptionOf);
    assert [] + [u] == [u];
  }

  /** One more update changes at most the artifact it names, or adds it at the end. */
  lemma {:induction false} MergeOneMore(updates: seq<ArtifactUpdate>, i: nat)
    requires updates != [] && i < |MergeAll(updates)|
    ensures var before, u := MergeAll(updates[..|updates| - 1]), updates[|updates| - 1];
            if i >= |before| then MergeAll(updates)[i] == u.artifact && u.artifact.id !in IdsOf(before)
            else MergeAll(updates)[i] == if before[i].id == u.artifact.id then Updated(before[i], u) else before[i]
  {
    var earlier, u := updates[..|updates| - 1], updates[|updates| - 1];
    var before := MergeAll(earlier);
    IdsInFirstAppearanceOrder(earlier);
    var first := IndexOf(before, u.artifact.id);
    if i < |before| && before[i].id == u.artifact.id {
      assert IdsOf(before)[i] == IdsOf(before)[first];
    }
  }

  /**
   Merging is a fold for each ID: the artifact of an ID is what its own updates amount to, whatever
   the updates of other IDs and however they were interleaved.
   */
  lemma {:induction false} MergedIsFoldPerId(updates: seq<ArtifactUpdate>, i: nat)
    requires i < |MergeAll(updates)|
    ensures var a := MergeAll(updates)[i]; Of(updates, a.id) != [] && a == Folded(Of(updates, a.id))
  {
    var earlier, u := updates[..|updates| - 1], updates[|updates| - 1];
    var id := u.artifact.id;
    MergeOneMore(updates, i);
    OfAppears(earlier, id);
    if i < |MergeAll(earlier)| {
      var a := MergeAll(earlier)[i];
      MergedIsFoldPerId(earlier, i);
      assert Of(updates, a.id) == if a.id == id then Of(earlier, a.id) + [u] else Of(earlier, a.id);
      if a.id == id {
        FoldOneMore(Of(earlier, id), u);
        assert Updated(a, u).id == id;
      }
    } else {
      IdsInFirstAppearanceOrder(earlier);
      assert Of(updates, id) == [u];
      FoldOne(u);
    }
  }
}
