/**
 The profile screen's training accordion: a fixed list of tips and a single
 slot remembering which tip, if any, is expanded.
 */
module Profile {
  import opened Types
  import opened Sequences

  /** The four tips the screen shows. */
  const TrainingTips: seq<TrainingTip> := [
    TrainingTip(1, "Conheça seu público",
      "Entenda as dores, desejos e objeções do seu público-alvo para criar uma comunicação mais eficaz e aumentar suas conversões."),
    TrainingTip(2, "Crie conteúdo de valor",
      "Não foque apenas em vender. Entregue conteúdo que ajude sua audiência a resolver problemas. Isso gera autoridade e confiança."),
    TrainingTip(3, "Use gatilhos mentais",
      "Utilize gatilhos como escassez, urgência e prova social em suas copys para incentivar a tomada de decisão do cliente."),
    TrainingTip(4, "Analise suas métricas",
      "Acompanhe os cliques, conversões e ROI de suas campanhas. Analisar os dados é fundamental para otimizar seus resultados.")
  ]

  /** The id of the expanded tip, if any. */
  datatype ProfileState = ProfileState(openTipId: Option<int>)

  const InitialState: ProfileState := ProfileState(None)

  predicate DistinctTipIds(tips: seq<TrainingTip>)
  {
    forall i, j :: 0 <= i < j < |tips| ==> tips[i].id != tips[j].id
  }

  /** The seed tips have the distinct ids 1 to 4, in order. */
  lemma TrainingTipsDistinct()
    ensures |TrainingTips| == 4
    ensures forall i :: 0 <= i < |TrainingTips| ==> TrainingTips[i].id == i + 1
    ensures DistinctTipIds(TrainingTips)
  {
  }

  predicate IsOpen(st: ProfileState, tip: TrainingTip)
  {
    st.openTipId == Some(tip.id)
  }

  /** Clicking a tip's header: the open tip closes, any other tip opens in its place. */
  function ToggleTip(st: ProfileState, id: int): (r: ProfileState)
    ensures st.openTipId == Some(id) ==> r.openTipId == None
    ensures st.openTipId != Some(id) ==> r.openTipId == Some(id)
    ensures forall t: TrainingTip :: IsOpen(r, t) ==> t.id == id
  {
    if st.openTipId == Some(id) then ProfileState(None) else ProfileState(Some(id))
  }

  /** The tips drawn expanded. */
  function OpenTips(st: ProfileState, tips: seq<TrainingTip>): (r: seq<TrainingTip>)
    ensures forall i :: 0 <= i < |r| ==> IsOpen(st, r[i])
    ensures forall t :: t in r <==> t in tips && IsOpen(st, t)
    ensures IsSubsequence(r, tips)
    ensures st.openTipId == None ==> r == []
  {
    FilterMembershipAll((t: TrainingTip) => IsOpen(st, t), tips);
    Filter((t: TrainingTip) => IsOpen(st, t), tips)
  }

  /** No tip is expanded when the screen appears. */
  lemma InitiallyAllClosed(tips: seq<TrainingTip>)
    ensures OpenTips(InitialState, tips) == []
  {
  }

  /** With distinct ids, at most one tip is expanded, whatever the state. */
  lemma {:induction false} AtMostOneOpen(st: ProfileState, tips: seq<TrainingTip>)
    requires DistinctTipIds(tips)
    ensures |OpenTips(st, tips)| <= 1
  {
    if |tips| > 0 {
      var rest := tips[1..];
      assert DistinctTipIds(rest) by {
        forall i, j | 0 <= i < j < |rest|
          ensures rest[i].id != rest[j].id
        {
          assert rest[i] == tips[i + 1] && rest[j] == tips[j + 1];
        }
      }
      AtMostOneOpen(st, rest);
      if IsOpen(st, tips[0]) {
        forall i | 0 <= i < |rest|
          ensures !IsOpen(st, rest[i])
        {
          assert rest[i] == tips[i + 1];
        }
        assert OpenTips(st, rest) == [];
      }
    }
  }

  /** Toggling the opened tip closes every tip; toggling another makes it the
      only open one. */
  lemma ToggleOpensOnlyThatTip(st: ProfileState, tips: seq<TrainingTip>, i: nat)
    requires DistinctTipIds(tips) && i < |tips|
    ensures IsOpen(st, tips[i]) ==> OpenTips(ToggleTip(st, tips[i].id), tips) == []
    ensures !IsOpen(st, tips[i]) ==> OpenTips(ToggleTip(st, tips[i].id), tips) == [tips[i]]
  {
    var r := ToggleTip(st, tips[i].id);
    if !IsOpen(st, tips[i]) {
      AtMostOneOpen(r, tips);
      FilterMembership((t: TrainingTip) => IsOpen(r, t), tips, tips[i]);
      assert tips[i] in OpenTips(r, tips);
    }
  }

  /** Toggling the same tip twice from "all closed" or from "that tip open"
      returns to where it started. */
  lemma ToggleTwice(st: ProfileState, id: int)
    requires st.openTipId == None || st.openTipId == Some(id)
    ensures ToggleTip(ToggleTip(st, id), id) == st
  {
  }
}
