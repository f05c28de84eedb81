/**
 * What combining accumulates from the worn renderers, taken in the order the
 * renderers are enumerated: one combine instance and one material per
 * sub-mesh, and each mesh's bind poses and each renderer's bone array appended.
 * Renderers without a mesh contribute nothing.
 */
module MeshCombine {
  import opened Wrappers
  import opened Clothing
  import opened Rig

  /** What the combiner reads from one worn renderer. */
  datatype RendererView = RendererView(sharedMesh: Option<Mesh>, sharedMaterials: seq<MaterialId>, bones: seq<BoneId>)

  /** The combine instances of one mesh: sub-meshes 0 .. subMeshCount - 1. */
  function SectionsOf(m: Mesh): (cis: seq<CombineInstance>)
    ensures |cis| == m.subMeshCount
    ensures forall s :: 0 <= s < |cis| ==> cis[s] == CombineInstance(m, s)
  {
    seq(m.subMeshCount, s requires 0 <= s => CombineInstance(m, s))
  }

  function Instances(rs: seq<RendererView>): seq<CombineInstance> {
    if rs == [] then []
    else
      var last := rs[|rs| - 1];
      Instances(rs[..|rs| - 1]) + (if last.sharedMesh.Some? then SectionsOf(last.sharedMesh.value) else [])
  }

  /** Every renderer with a mesh has a material for each of its sub-meshes. */
  predicate MaterialsCover(rs: seq<RendererView>) {
    forall k :: 0 <= k < |rs| && rs[k].sharedMesh.Some? ==>
      rs[k].sharedMesh.value.subMeshCount <= |rs[k].sharedMaterials|
  }

  function Materials(rs: seq<RendererView>): seq<MaterialId>
    requires MaterialsCover(rs)
  {
    if rs == [] then []
    else
      var last := rs[|rs| - 1];
      Materials(rs[..|rs| - 1]) +
        (if last.sharedMesh.Some? then last.sharedMaterials[..last.sharedMesh.value.subMeshCount] else [])
  }

  function Bindposes(rs: seq<RendererView>): seq<BindposeId> {
    if rs == [] then []
    else
      var last := rs[|rs| - 1];
      Bindposes(rs[..|rs| - 1]) + (if last.sharedMesh.Some? then last.sharedMesh.value.bindposes else [])
  }

  function Bones(rs: seq<RendererView>): seq<BoneId> {
    if rs == [] then []
    else
      var last := rs[|rs| - 1];
      Bones(rs[..|rs| - 1]) + (if last.sharedMesh.Some? then last.bones else [])
  }

  /** The four lists one combine pass collects. */
  datatype Accumulated = Accumulated(instances: seq<CombineInstance>, materials: seq<MaterialId>,
                                     bindposes: seq<BindposeId>, bones: seq<BoneId>)

  /** Extending the renderers by one extends each collected list by that renderer's share. */
  lemma PrefixStep(views: seq<RendererView>, k: nat)
    requires k < |views|
    ensures var v, pre, pre' := views[k], views[..k], views[..k + 1];
      && (MaterialsCover(pre') <==>
            MaterialsCover(pre) && (v.sharedMesh.Some? ==> v.sharedMesh.value.subMeshCount <= |v.sharedMaterials|))
      && Instances(pre') == Instances(pre) + (if v.sharedMesh.Some? then SectionsOf(v.sharedMesh.value) else [])
      && (MaterialsCover(pre') ==>
            Materials(pre') == Materials(pre) +
              (if v.sharedMesh.Some? then v.sharedMaterials[..v.sharedMesh.value.subMeshCount] else []))
      && Bindposes(pre') == Bindposes(pre) + (if v.sharedMesh.Some? then v.sharedMesh.value.bindposes else [])
      && Bones(pre') == Bones(pre) + (if v.sharedMesh.Some? then v.bones else [])
  {
    assert views[..k + 1][..k] == views[..k];
  }

  /**
   * The sub-mesh loop for one mesh: a combine instance and a material per
   * sub-mesh. Indexing the materials past their end throws, reported as None.
   */
  method CollectSections(m: Mesh, rendererMaterials: seq<MaterialId>)
    returns (sections: seq<CombineInstance>, materials: Option<seq<MaterialId>>)
    ensures materials.Some? <==> m.subMeshCount <= |rendererMaterials|
    ensures materials.Some? ==> sections == SectionsOf(m) && materials.value == rendererMaterials[..m.subMeshCount]
  {
    sections := [];
    var collected: seq<MaterialId> := [];
    for s := 0 to m.subMeshCount
      invariant s <= |rendererMaterials|
      invariant sections == SectionsOf(m)[..s]
      invariant collected == rendererMaterials[..s]
    {
      sections := sections + [CombineInstance(m, s)];
      if s >= |rendererMaterials| {
        return sections, None;
      }
      assert rendererMaterials[..s + 1] == rendererMaterials[..s] + [rendererMaterials[s]];
      assert SectionsOf(m)[..s + 1] == SectionsOf(m)[..s] + [CombineInstance(m, s)];
      collected := collected + [rendererMaterials[s]];
    }
    assert SectionsOf(m)[..m.subMeshCount] == SectionsOf(m);
    materials := Some(collected);
  }

  /**
   * The collecting loops of a combine pass. Indexing a renderer's materials
   * past their end throws, reported as None; otherwise the lists are the ones
   * specified above.
   */
  method Accumulate(views: seq<RendererView>) returns (r: Option<Accumulated>)
    ensures r.Some? <==> MaterialsCover(views)
    ensures r.Some? ==> r.value == Accumulated(Instances(views), Materials(views), Bindposes(views), Bones(views))
  {
    var combineInstances: seq<CombineInstance> := [];
    var finalBindposes: seq<BindposeId> := [];
    var materials: seq<MaterialId> := [];
    var finalBones: seq<BoneId> := [];
    for k := 0 to |views|
      invariant MaterialsCover(views[..k])
      invariant combineInstances == Instances(views[..k])
      invariant materials == Materials(views[..k])
      invariant finalBindposes == Bindposes(views[..k])
      invariant finalBones == Bones(views[..k])
    {
      var renderer := views[k];
      PrefixStep(views, k);
      if renderer.sharedMesh.Some? {
        var m := renderer.sharedMesh.value;
        var sections, collected := CollectSections(m, renderer.sharedMaterials);
        if collected.None? {
          assert !MaterialsCover(views) by {
            assert views[k].sharedMesh.Some? && m.subMeshCount > |views[k].sharedMaterials|;
          }
          return None;
        }
        combineInstances := combineInstances + sections;
        materials := materials + collected.value;
        finalBindposes := finalBindposes + m.bindposes;
        finalBones := finalBones + renderer.bones;
      }
    }
    assert views[..|views|] == views;
    r := Some(Accumulated(combineInstances, materials, finalBindposes, finalBones));
  }

  /** The number of sub-meshes over the renderers that have a mesh. */
  function SectionCount(rs: seq<RendererView>): nat {
    if rs == [] then 0
    else
      var last := rs[|rs| - 1];
      SectionCount(rs[..|rs| - 1]) + (if last.sharedMesh.Some? then last.sharedMesh.value.subMeshCount else 0)
  }

  /** The number of renderers that have a mesh. */
  function MeshedCount(rs: seq<RendererView>): nat {
    if rs == [] then 0
    else MeshedCount(rs[..|rs| - 1]) + (if rs[|rs| - 1].sharedMesh.Some? then 1 else 0)
  }

  /** The k-fold repetition of a bone array. */
  function Repeat(bones: seq<BoneId>, k: nat): seq<BoneId> {
    if k == 0 then [] else Repeat(bones, k - 1) + bones
  }

  /**
   * Material/instance parity: the material list runs parallel to the combine
   * instances, one entry per sub-mesh of every renderer that has a mesh.
   */
  lemma {:induction false} MaterialsParallelInstances(rs: seq<RendererView>)
    requires MaterialsCover(rs)
    ensures |Materials(rs)| == |Instances(rs)| == SectionCount(rs)
  {
    if rs != [] {
      var init := rs[..|rs| - 1];
      assert MaterialsCover(init) by {
        forall k | 0 <= k < |init| && init[k].sharedMesh.Some?
          ensures init[k].sharedMesh.value.subMeshCount <= |init[k].sharedMaterials|
        {
          assert init[k] == rs[k];
        }
      }
      MaterialsParallelInstances(init);
    }
  }

  /** Material coverage of the renderers carries over to every prefix of them. */
  lemma CoverPrefix(rs: seq<RendererView>, n: nat)
    requires MaterialsCover(rs) && n <= |rs|
    ensures MaterialsCover(rs[..n])
  {
    forall k | 0 <= k < n && rs[..n][k].sharedMesh.Some?
      ensures rs[..n][k].sharedMesh.value.subMeshCount <= |rs[..n][k].sharedMaterials|
    {
      assert rs[..n][k] == rs[k];
    }
  }

  /**
   * Instances and materials pair up by position: sub-mesh s of the k-th
   * renderer sits at index SectionCount(rs[..k]) + s of both lists, as the
   * combine instance of that mesh and sub-mesh and as the k-th renderer's own
   * material for it, whatever other renderers share its mesh.
   */
  lemma {:induction false} InstanceMaterialPairing(rs: seq<RendererView>, k: nat, s: nat)
    requires MaterialsCover(rs)
    requires k < |rs| && rs[k].sharedMesh.Some? && s < rs[k].sharedMesh.value.subMeshCount
    ensures SectionCount(rs[..k]) + s < |Instances(rs)| == |Materials(rs)|
    ensures Instances(rs)[SectionCount(rs[..k]) + s] == CombineInstance(rs[k].sharedMesh.value, s)
    ensures Materials(rs)[SectionCount(rs[..k]) + s] == rs[k].sharedMaterials[s]
  {
    var n := |rs| - 1;
    var init, last := rs[..n], rs[n];
    CoverPrefix(rs, n);
    MaterialsParallelInstances(rs);
    MaterialsParallelInstances(init);
    assert rs[..n + 1] == rs;
    PrefixStep(rs, n);
    if k == n {
      assert rs[..k] == init;
    } else {
      assert init[..k] == rs[..k] && init[k] == rs[k];
      InstanceMaterialPairing(init, k, s);
    }
  }

  /**
   * Every combine instance comes from a renderer with a mesh: its index falls
   * in the k-th renderer's block of positions, the block InstanceMaterialPairing
   * describes.
   */
  lemma {:induction false} InstanceOrigin(rs: seq<RendererView>, j: nat)
    requires j < |Instances(rs)|
    ensures exists k :: 0 <= k < |rs| && rs[k].sharedMesh.Some?
                        && SectionCount(rs[..k]) <= j < SectionCount(rs[..k]) + rs[k].sharedMesh.value.subMeshCount
  {
    var n := |rs| - 1;
    var init := rs[..n];
    assert rs[..n + 1] == rs;
    PrefixStep(rs, n);
    SectionCountInstances(init);
    if j < |Instances(init)| {
      InstanceOrigin(init, j);
      var k :| 0 <= k < |init| && init[k].sharedMesh.Some?
               && SectionCount(init[..k]) <= j < SectionCount(init[..k]) + init[k].sharedMesh.value.subMeshCount;
      assert init[..k] == rs[..k] && init[k] == rs[k];
    } else {
      assert rs[..n] == init;
    }
  }

  /** There is one combine instance per sub-mesh. */
  lemma {:induction false} SectionCountInstances(rs: seq<RendererView>)
    ensures |Instances(rs)| == SectionCount(rs)
  {
    if rs != [] {
      SectionCountInstances(rs[..|rs| - 1]);
    }
  }

  /**
   * The bone array is the concatenation of the bone arrays of the renderers with
   * a mesh; when all of them carry the same skeleton, that skeleton repeated.
   */
  lemma {:induction false} BonesRepeatSkeleton(rs: seq<RendererView>, skeleton: seq<BoneId>)
    requires forall k :: 0 <= k < |rs| ==> rs[k].bones == skeleton
    ensures Bones(rs) == Repeat(skeleton, MeshedCount(rs))
    ensures |Bones(rs)| == MeshedCount(rs) * |skeleton|
  {
    if rs != [] {
      var init := rs[..|rs| - 1];
      assert forall k :: 0 <= k < |init| ==> init[k] == rs[k];
      BonesRepeatSkeleton(init, skeleton);
      if rs[|rs| - 1].sharedMesh.Some? {
        calc {
          |Bones(rs)|;
          MeshedCount(init) * |skeleton| + |skeleton|;
          (MeshedCount(init) + 1) * |skeleton|;
        }
      }
    }
  }

  /**
   * The combined bone array and bind poses have the same length exactly when
   * the meshes' bind-pose counts add up to the bones contributed; in particular
   * when every mesh has one bind pose per bone of its renderer.
   */
  lemma {:induction false} BonesMatchBindposes(rs: seq<RendererView>)
    requires forall k :: 0 <= k < |rs| && rs[k].sharedMesh.Some? ==>
               |rs[k].sharedMesh.value.bindposes| == |rs[k].bones|
    ensures |Bones(rs)| == |Bindposes(rs)|
  {
    if rs != [] {
      var init := rs[..|rs| - 1];
      assert forall k :: 0 <= k < |init| ==> init[k] == rs[k];
      BonesMatchBindposes(init);
    }
  }
}
