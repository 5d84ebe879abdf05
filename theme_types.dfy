/** The colour themes a user can choose and the table the selector shows. */
module ThemeTypes {
  import opened AuthTypes

  datatype Theme = CamposJordao | Modern | Elegant | Sunset
  {
    /** The theme's string id. */
    function Id(): string
    {
      match this
      case CamposJordao => "campos-jordao"
      case Modern => "modern"
      case Elegant => "elegant"
      case Sunset => "sunset"
    }

    /** The theme's position in the selector's table. */
    function Index(): (i: nat)
      ensures i < 4
    {
      match this
      case CamposJordao => 0
      case Modern => 1
      case Elegant => 2
      case Sunset => 3
    }
  }

  /** The theme used until a stored preference says otherwise. */
  const DefaultTheme: Theme := CamposJordao

  datatype ThemeOption = ThemeOption(id: Theme, name: string, description: string, primaryColor: string)

  /** `THEME_OPTIONS`: one entry per theme, the default first, so the
      selector's lookup of the current theme always finds an entry. */
  function ThemeOptions(): (r: seq<ThemeOption>)
    ensures |r| == 4
    ensures r[0].id == DefaultTheme
    ensures forall i, j :: 0 <= i < j < |r| ==> r[i].id != r[j].id
    ensures forall t: Theme :: r[t.Index()].id == t
  {
    var r := [
      ThemeOption(CamposJordao, "Campos do Jordão",
        "Tons terrosos e montanhosos inspirados na cidade serrana", "hsl(140 40% 35%)"),
      ThemeOption(Modern, "Moderno Azul",
        "Visual limpo e profissional com tons de azul", "hsl(217 91% 60%)"),
      ThemeOption(Elegant, "Elegante Púrpura",
        "Sofisticado com tons de roxo e lilás", "hsl(270 50% 45%)"),
      ThemeOption(Sunset, "Sunset Laranja",
        "Caloroso e acolhedor com tons de pôr do sol", "hsl(15 75% 55%)")
    ];
    r
  }

  /** `options.find(option => option.id === theme)`. */
  function FindOption(options: seq<ThemeOption>, t: Theme): (r: Option<ThemeOption>)
    ensures r.Some? ==> r.value in options && r.value.id == t
    ensures r.None? <==> forall o :: o in options ==> o.id != t
  {
    if options == [] then None
    else if options[0].id == t then Some(options[0])
    else FindOption(options[1..], t)
  }

  /** The selector's lookup of the current theme always finds its entry. */
  lemma EveryThemeFound(t: Theme)
    ensures FindOption(ThemeOptions(), t) == Some(ThemeOptions()[t.Index()])
  {
    var r := ThemeOptions();
    assert r[t.Index()] in r;
  }

  /** Distinct themes have distinct string ids. */
  lemma IdInjective(t1: Theme, t2: Theme)
    requires t1.Id() == t2.Id()
    ensures t1 == t2
  {
    assert t1.Id()[0] == t2.Id()[0];
  }
}
