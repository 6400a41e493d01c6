/**
 The materials screen: a seeded in-memory list of marketing materials, an
 add form that can be shown and hidden, and confirmed deletion by id.
 */
module Materials {
  import opened Types
  import opened Sequences

  /** The three materials the screen starts with. */
  const InitialMaterials: seq<Material> := [
    Material(1, Text, "Copy para Story",
      "🔥 Quer aprender a faturar 5 dígitos por mês trabalhando de casa? Arrasta pra cima e descubra o método que mudou minha vida! 🚀"),
    Material(2, Image, "Banner Promocional", "https://picsum.photos/800/400"),
    Material(3, Text, "Texto para Post",
      "Você não precisa de mais motivação, você precisa de um método. Conheça o passo a passo para alcançar seus objetivos ainda este ano. Link na bio! #sucesso #marketingdigital")
  ]

  /** The screen's state: the list, whether the add form is visible, and the
      form's three fields. */
  datatype MaterialsState = MaterialsState(
    materials: seq<Material>,
    showAddForm: bool,
    title: string,
    content: string,
    kind: MaterialKind)

  const InitialState: MaterialsState := MaterialsState(InitialMaterials, false, "", "", Text)

  function Ids(ms: seq<Material>): set<int>
  {
    set i | 0 <= i < |ms| :: ms[i].id
  }

  predicate DistinctIds(ms: seq<Material>)
  {
    forall i, j :: 0 <= i < j < |ms| ==> ms[i].id != ms[j].id
  }

  /** The seed holds three materials with the distinct ids 1, 2 and 3. */
  lemma InitialMaterialsDistinct()
    ensures |InitialMaterials| == 3
    ensures Ids(InitialMaterials) == {1, 2, 3}
    ensures DistinctIds(InitialMaterials)
  {
    assert InitialMaterials[0].id == 1 && InitialMaterials[1].id == 2 && InitialMaterials[2].id == 3;
  }

  // ---------------------------------------------------------------------------
  // Form edits

  function EditTitle(st: MaterialsState, title: string): (r: MaterialsState)
    ensures r.title == title && r.materials == st.materials && r.content == st.content
    ensures r.showAddForm == st.showAddForm && r.kind == st.kind
  {
    st.(title := title)
  }

  function EditContent(st: MaterialsState, content: string): (r: MaterialsState)
    ensures r.content == content && r.materials == st.materials && r.title == st.title
    ensures r.showAddForm == st.showAddForm && r.kind == st.kind
  {
    st.(content := content)
  }

  function SelectKind(st: MaterialsState, kind: MaterialKind): (r: MaterialsState)
    ensures r.kind == kind && r.materials == st.materials
    ensures r.showAddForm == st.showAddForm && r.title == st.title && r.content == st.content
  {
    st.(kind := kind)
  }

  /** The "+" button flips the form's visibility and touches nothing else. */
  function ToggleAddForm(st: MaterialsState): (r: MaterialsState)
    ensures r.showAddForm != st.showAddForm
    ensures r.materials == st.materials && r.title == st.title
    ensures r.content == st.content && r.kind == st.kind
  {
    st.(showAddForm := !st.showAddForm)
  }

  // ---------------------------------------------------------------------------
  // Add and delete

  /** Submitting the form. `newId` stands for the creation timestamp the app
      uses as the id. With both title and content filled in, the new material
      goes to the front, the text fields are cleared (the kind is kept) and the
      form is hidden; otherwise nothing changes. */
  function AddMaterial(st: MaterialsState, newId: int): (r: MaterialsState)
    ensures st.title != "" && st.content != "" ==>
      && |r.materials| == |st.materials| + 1
      && r.materials[0] == Material(newId, st.kind, st.title, st.content)
      && r.materials[1..] == st.materials
      && r.title == "" && r.content == ""
      && !r.showAddForm
      && r.kind == st.kind
    ensures st.title == "" || st.content == "" ==> r == st
  {
    if st.title != "" && st.content != "" then
      MaterialsState([Material(newId, st.kind, st.title, st.content)] + st.materials,
                     false, "", "", st.kind)
    else st
  }

  /** The materials left after removing every one with the given id. */
  function WithoutId(ms: seq<Material>, id: int): (r: seq<Material>)
    ensures forall x :: multiset(r)[x] == if x.id != id then multiset(ms)[x] else 0
    ensures IsSubsequence(r, ms)
    ensures id !in Ids(r)
    ensures id !in Ids(ms) ==> r == ms
  {
    Filter((m: Material) => m.id != id, ms)
  }

  /** The trash button: only when the user confirms does the list lose the
      materials carrying `id`, the others keeping their order. */
  function DeleteMaterial(st: MaterialsState, id: int, confirmed: bool): (r: MaterialsState)
    ensures !confirmed ==> r == st
    ensures confirmed ==>
      && (forall x :: multiset(r.materials)[x] ==
            if x.id != id then multiset(st.materials)[x] else 0)
      && IsSubsequence(r.materials, st.materials)
      && id !in Ids(r.materials)
    ensures id !in Ids(st.materials) ==> r == st
    ensures r.showAddForm == st.showAddForm && r.title == st.title && r.content == st.content
    ensures r.kind == st.kind
  {
    if confirmed then st.(materials := WithoutId(st.materials, id)) else st
  }

  /** Adding a material under a fresh id and then confirming its deletion gives
      back the original list. */
  lemma AddThenDeleteRestores(st: MaterialsState, newId: int)
    requires st.title != "" && st.content != ""
    requires newId !in Ids(st.materials)
    ensures DeleteMaterial(AddMaterial(st, newId), newId, true).materials == st.materials
  {
    var added := AddMaterial(st, newId).materials;
    assert added == [added[0]] + st.materials;
    assert Filter((m: Material) => m.id != newId, added)
        == Filter((m: Material) => m.id != newId, st.materials);
  }

  /** Deleting the same id twice is the same as deleting it once. */
  lemma DeleteIdempotent(st: MaterialsState, id: int)
    ensures DeleteMaterial(DeleteMaterial(st, id, true), id, true)
         == DeleteMaterial(st, id, true)
  {
  }

  /** Deletion never breaks id uniqueness. */
  lemma DeleteKeepsDistinctIds(st: MaterialsState, id: int, confirmed: bool)
    requires DistinctIds(st.materials)
    ensures DistinctIds(DeleteMaterial(st, id, confirmed).materials)
  {
    if confirmed {
      var distinct := (a: Material, b: Material) => a.id != b.id;
      SubsequenceKeepsOrder(WithoutId(st.materials, id), st.materials, distinct);
    }
  }
}
