/** The prediction bank of `_load_predictions`, the lucky-colour table and
    the daily-advice list. Sentences are kept as their skeleton and the
    values substituted into it; the Russian wording is not modelled. */
module Predictions {
  import opened Zodiac
  import opened Signs

  /** The five life areas, in report order. */
  const Aspects: seq<string> := ["Любовь", "Карьера", "Здоровье", "Финансы", "Личностный рост"]

  /** The five aspects are distinct. */
  lemma AspectsDistinct()
    ensures |set a | a in Aspects| == |Aspects| == 5
  {
    assert (set a | a in Aspects) == {"Любовь", "Карьера", "Здоровье", "Финансы", "Личностный рост"};
  }

  const TemplatesPerAspect: nat := 5

  /** One prediction sentence: which skeleton, filled with what. */
  datatype Template =
    | RulerInfluence(ruler: string, aspect: string)
    | ElementEnergy(element: Element, aspect: string)
    | QualityShows(quality: Quality, aspect: string)
    | UnexpectedTurns(signName: string, aspect: string)
    | StarsAdvise(signName: string, aspect: string)

  /** The sign attribute a template names. */
  predicate Mentions(t: Template, s: Sign) {
    match t
    case RulerInfluence(r, _) => r == s.ruler
    case ElementEnergy(e, _) => e == s.element
    case QualityShows(q, _) => q == s.quality
    case UnexpectedTurns(n, _) => n == s.name
    case StarsAdvise(n, _) => n == s.name
  }

  /** The five sentences generated for one sign and one aspect. */
  function Templates(s: Sign, aspect: string): (ts: seq<Template>)
    ensures |ts| == TemplatesPerAspect
    ensures forall i :: 0 <= i < |ts| ==> Mentions(ts[i], s) && ts[i].aspect == aspect
    ensures forall i, j :: 0 <= i < j < |ts| ==> ts[i] != ts[j]
  {
    [RulerInfluence(s.ruler, aspect), ElementEnergy(s.element, aspect), QualityShows(s.quality, aspect),
     UnexpectedTurns(s.name, aspect), StarsAdvise(s.name, aspect)]
  }

  type Bank = map<string, map<string, seq<Template>>>

  function SignNames(signs: seq<Sign>): set<string> {
    set i | 0 <= i < |signs| :: signs[i].name
  }

  /** No sign after position `i`, up to `hi`, reuses the name of sign `i`, so
      the entries written for sign `i` are the last ones under its name. */
  predicate LastWithName(signs: seq<Sign>, i: int, hi: int)
    requires 0 <= i < |signs| && hi <= |signs|
  {
    forall j :: i < j < hi ==> signs[j].name != signs[i].name
  }

  /** Every name present maps every aspect of `aspectSet`, and only those,
      to five templates. */
  predicate WellShaped(bank: Bank, aspectSet: set<string>) {
    forall n :: n in bank ==> bank[n].Keys == aspectSet && forall a :: a in bank[n] ==> |bank[n][a]| == TemplatesPerAspect
  }

  /** The inner loop of `_load_predictions` for one sign: writes the five
      templates of each aspect under the sign's name. */
  method StoreSign(bank: Bank, s: Sign, aspects: seq<string>) returns (out: Bank)
    requires WellShaped(bank, set a | a in aspects)
    ensures WellShaped(out, set a | a in aspects)
    ensures out.Keys == bank.Keys + (if |aspects| == 0 then {} else {s.name})
    ensures forall n :: n in bank && n != s.name ==> out[n] == bank[n]
    ensures forall a :: a in aspects ==> s.name in out && a in out[s.name] && out[s.name][a] == Templates(s, a)
  {
    ghost var aspectSet := set a | a in aspects;
    out := bank;
    for m := 0 to |aspects|
      invariant out.Keys == bank.Keys + (if m == 0 then {} else {s.name})
      invariant forall n :: n in out && n != s.name ==> out[n] == bank[n]
      invariant s.name in out ==> (set a | a in aspects[..m]) <= out[s.name].Keys
      invariant s.name in out ==> out[s.name].Keys <= aspectSet
      invariant s.name in bank ==> out[s.name].Keys == aspectSet
      invariant s.name in out ==> forall a :: a in out[s.name] ==> |out[s.name][a]| == TemplatesPerAspect
      invariant forall a :: a in aspects[..m] ==> s.name in out && a in out[s.name] && out[s.name][a] == Templates(s, a)
    {
      var inner := if s.name in out then out[s.name] else map[];
      out := out[s.name := inner[aspects[m] := Templates(s, aspects[m])]];
    }
    assert aspects[..|aspects|] == aspects;
  }

  lemma SignNamesSnoc(signs: seq<Sign>, k: nat)
    requires k < |signs|
    ensures SignNames(signs[..k + 1]) == SignNames(signs[..k]) + {signs[k].name}
  {
    forall n | n in SignNames(signs[..k + 1])
      ensures n in SignNames(signs[..k]) + {signs[k].name}
    {
      var i :| 0 <= i < k + 1 && signs[..k + 1][i].name == n;
      if i < k {
        assert signs[..k][i].name == n;
      }
    }
    forall n | n in SignNames(signs[..k])
      ensures n in SignNames(signs[..k + 1])
    {
      var i :| 0 <= i < k && signs[..k][i].name == n;
      assert signs[..k + 1][i].name == n;
    }
  }

  /** `_load_predictions`: for every sign, for every aspect,
      `predictions[sign.name][aspect] = <five templates>`, on a two-level
      default dictionary (a key appears only when first written). */
  method LoadPredictions(signs: seq<Sign>, aspects: seq<string>) returns (bank: Bank)
    ensures bank.Keys == if |aspects| == 0 then {} else SignNames(signs)
    ensures forall n :: n in bank ==> bank[n].Keys == set a | a in aspects
    ensures forall n, a :: n in bank && a in bank[n] ==> |bank[n][a]| == TemplatesPerAspect
    ensures forall i, a :: 0 <= i < |signs| && LastWithName(signs, i, |signs|) && a in aspects ==>
              signs[i].name in bank && a in bank[signs[i].name] && bank[signs[i].name][a] == Templates(signs[i], a)
  {
    bank := map[];
    for k := 0 to |signs|
      invariant bank.Keys == if |aspects| == 0 then {} else SignNames(signs[..k])
      invariant WellShaped(bank, set a | a in aspects)
      invariant forall i, a :: 0 <= i < k && LastWithName(signs, i, k) && a in aspects ==>
                  signs[i].name in bank && a in bank[signs[i].name] && bank[signs[i].name][a] == Templates(signs[i], a)
    {
      var prev := bank;
      bank := StoreSign(prev, signs[k], aspects);
      SignNamesSnoc(signs, k);
      forall i, a | 0 <= i < k + 1 && LastWithName(signs, i, k + 1) && a in aspects
        ensures signs[i].name in bank && a in bank[signs[i].name]
        ensures bank[signs[i].name][a] == Templates(signs[i], a)
      {
        if i < k {
          assert signs[k].name != signs[i].name;
          assert LastWithName(signs, i, k);
          assert bank[signs[i].name] == prev[signs[i].name];
        }
      }
    }
    assert signs[..|signs|] == signs;
  }

  /** Lucky colour per sign name (`self.colors`). */
  const Colors: map<string, string> := map[
    "Овен" := "красный", "Телец" := "зеленый", "Близнецы" := "желтый", "Рак" := "серебряный",
    "Лев" := "золотой", "Дева" := "коричневый", "Весы" := "розовый", "Скорпион" := "темно-красный",
    "Стрелец" := "фиолетовый", "Козерог" := "черный", "Водолей" := "синий", "Рыбы" := "бирюзовый"
  ]

  /** The colour table is keyed by exactly the sign names, so
      `self.colors[zodiac_sign.name]` cannot raise `KeyError`. */
  lemma ColorsCoverSigns()
    ensures Colors.Keys == SignNames(Table)
    ensures forall i :: 0 <= i < |Table| ==> Table[i].name in Colors
    ensures Colors[Cancer.name] == "серебряный"
  {
    assert forall i :: 0 <= i < |Table| ==> Table[i].name in Colors;
    forall n | n in Colors ensures n in SignNames(Table) {
      if n == "Овен" { assert Table[0].name == n; }
      else if n == "Телец" { assert Table[1].name == n; }
      else if n == "Близнецы" { assert Table[2].name == n; }
      else if n == "Рак" { assert Table[3].name == n; }
      else if n == "Лев" { assert Table[4].name == n; }
      else if n == "Дева" { assert Table[5].name == n; }
      else if n == "Весы" { assert Table[6].name == n; }
      else if n == "Скорпион" { assert Table[7].name == n; }
      else if n == "Стрелец" { assert Table[8].name == n; }
      else if n == "Козерог" { assert Table[9].name == n; }
      else if n == "Водолей" { assert Table[10].name == n; }
      else { assert Table[11].name == n; }
    }
  }

  /** The five pieces of daily advice of `get_daily_advice`. */
  datatype Advice =
    | ElementStrong(element: Element)
    | QualityHelps(quality: Quality)
    | HeedRuler(ruler: string)
    | Meditate
    | StayOpen

  function DailyAdvice(s: Sign): (advices: seq<Advice>)
    ensures |advices| == 5
    ensures advices[0].ElementStrong? && advices[0].element == s.element
    ensures advices[1].QualityHelps? && advices[1].quality == s.quality
    ensures advices[2].HeedRuler? && advices[2].ruler == s.ruler
  {
    [ElementStrong(s.element), QualityHelps(s.quality), HeedRuler(s.ruler), Meditate, StayOpen]
  }
}
