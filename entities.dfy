/** The records the API sends back, as the screens read them. Fields the
    source declares nullable are `Option`s; `atributos` is an opaque JSON
    value. */
module Entities {
  import opened Base

  /** A campaign as a character lists it: `{ campanha: { id, nome } }`. */
  datatype CampanhaRef = CampanhaRef(id: int, nome: string)

  /** A character (`PersonagemType`). */
  datatype Personagem = Personagem(
    id: int,
    nome: string,
    raca: Option<string>,
    descricao: Option<string>,
    url_ficha_pdf: Option<string>,
    atributos: Option<Json>,
    usuario_id: int,
    sistema_id: int,
    campanhas: Option<seq<CampanhaRef>>)

  /** A campaign (`CampanhaType`); `personagens` is the roster, each entry
      unwrapped from its `{ personagem }` envelope, and may be absent. */
  datatype Campanha = Campanha(
    id: int,
    nome: string,
    descricao: Option<string>,
    mestre_do_jogo: Option<string>,
    data_inicio: Option<string>,
    sistemaNome: string,
    personagens: Option<seq<Personagem>>)

  /** A game system: a flat named reference. */
  datatype Sistema = Sistema(id: int, nome: string)

  function PersonagemNome(p: Personagem): string { p.nome }
  function CampanhaNome(c: Campanha): string { c.nome }
  function SistemaNome(s: Sistema): string { s.nome }
}
