/** The learning map overlay (App.tsx, `LearningMap`): four fixed options and
    the one the visitor last clicked; the message shown is that of the first
    option whose id equals the selection (`options.find`). */
module LearningMap {
  import opened Optional

  /** One option of the map. `caption` is the source's `label` (a reserved word
      in Dafny); the colour and shadow classes are styling. */
  datatype MapOption = MapOption(id: string, caption: string, message: string)

  const Options: seq<MapOption> := [
    MapOption("start", "Başlıyorum", "En zor adım atıldı. İlk kıvılcım her zaman en değerlisidir."),
    MapOption("try", "Deniyorum", "Hata yapmaktan korkmadığın her an, aslında ustalaşıyorsun."),
    MapOption("stuck", "Takıldım", "Durmak geri gitmek değildir; bazen zihin sadece demlenmek ister."),
    MapOption("continue", "Devam ediyorum", "Süreklilik en büyük güçtür. Kendi ritminde parlıyorsun.")
  ]

  /** `options.find(o => o.id === selected)`: the position of the first option
      whose id is the selection, or none when no id matches (a `null`
      selection matches no id). */
  function FindFirst(options: seq<MapOption>, selected: Option<string>): (r: Option<nat>)
    ensures r.Some? ==> r.value < |options| && selected == Some(options[r.value].id)
    ensures r.Some? ==> forall j :: 0 <= j < r.value ==> selected != Some(options[j].id)
    ensures r.None? <==> forall j :: 0 <= j < |options| ==> selected != Some(options[j].id)
  {
    if options == [] then None
    else if selected == Some(options[0].id) then Some(0)
    else match FindFirst(options[1..], selected)
      case None => None
      case Some(k) => Some(k + 1)
  }

  /** The option whose message the overlay shows for `selected`. */
  function ActiveOption(selected: Option<string>): (r: Option<MapOption>)
    ensures r.Some? ==> r.value in Options && selected == Some(r.value.id)
    ensures r.None? <==> forall j :: 0 <= j < |Options| ==> selected != Some(Options[j].id)
  {
    match FindFirst(Options, selected)
    case None => None
    case Some(k) => Some(Options[k])
  }

  /** Selecting an option's id shows exactly that option: the four ids are
      distinct, so the first match is the clicked option itself. */
  lemma SelectingShowsThatOption(k: nat)
    requires k < |Options|
    ensures ActiveOption(Some(Options[k].id)) == Some(Options[k])
  {
  }

  /** With nothing selected, no message is shown. */
  lemma NothingSelectedShowsNothing()
    ensures ActiveOption(None) == None
  {
  }

  class LearningMapState {
    var selected: Option<string>

    constructor ()
      ensures selected == None && Active() == None
    {
      selected := None;
    }

    /** The message shown under the options. */
    function Active(): (r: Option<MapOption>)
      reads this
      ensures r.Some? ==> selected == Some(r.value.id)
    {
      ActiveOption(selected)
    }

    /** Clicking an option's button. */
    method Select(id: string)
      modifies this
      ensures selected == Some(id)
      ensures Active().Some? <==> exists j :: 0 <= j < |Options| && Options[j].id == id
    {
      selected := Some(id);
    }
  }
}
