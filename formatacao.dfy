/**
 * The address formatting of the web client: an address comes from the API
 * either as ready text or as an object of optional fields, and is shown as
 * one line with the empty parts left out.
 */
module Formatacao {
  import opened Wrappers
  import opened Texto

  /** An address as the API may send it: absent, already text, or by fields (each possibly undefined). */
  datatype EnderecoApi =
    | Ausente
    | Texto(texto: string)
    | Objeto(logradouro: Option<string>, numero: Option<string>, bairro: Option<string>,
             cidade: Option<string>, uf: Option<string>, cep: Option<string>)

  /** `Boolean(x)` on an optional string: defined and not "". */
  predicate Verdadeiro(x: Option<string>)
  {
    x.Some? && x.value != ""
  }

  /** `filter(Boolean)`: the defined, non-empty values, in order. */
  function Presentes(xs: seq<Option<string>>): (r: seq<string>)
    ensures |r| <= |xs|
    ensures forall i :: 0 <= i < |r| ==> r[i] != ""
    ensures r == [] <==> forall i :: 0 <= i < |xs| ==> !Verdadeiro(xs[i])
  {
    if xs == [] then []
    else
      var resto := Presentes(xs[1..]);
      assert forall i :: 1 <= i < |xs| ==> xs[i] == xs[1..][i - 1];
      if Verdadeiro(xs[0]) then [xs[0].value] + resto else resto
  }

  /** What one value contributes to the filter: itself when it is truthy, nothing otherwise. */
  function Campo(x: Option<string>): (r: seq<string>)
    ensures r == [] <==> !Verdadeiro(x)
    ensures Verdadeiro(x) ==> r == [x.value]
  {
    if Verdadeiro(x) then [x.value] else []
  }

  /** The filter of one value keeps it exactly when it is truthy. */
  lemma PresentesDeUm(x: Option<string>)
    ensures Presentes([x]) == Campo(x)
  {
    assert [x][1..] == [];
  }

  /** The filter runs value by value: filtering a concatenation concatenates the filtered parts, so order is kept. */
  lemma {:induction false} PresentesConcat(a: seq<Option<string>>, b: seq<Option<string>>)
    ensures Presentes(a + b) == Presentes(a) + Presentes(b)
  {
    if a == [] {
      assert a + b == b;
    } else {
      assert (a + b)[0] == a[0] && (a + b)[1..] == a[1..] + b;
      PresentesConcat(a[1..], b);
    }
  }

  /** Four values filter to the truthy ones among them, in their order. */
  lemma PresentesPorCampo(a: Option<string>, b: Option<string>, c: Option<string>, d: Option<string>)
    ensures Presentes([a, b, c, d]) == Campo(a) + Campo(b) + Campo(c) + Campo(d)
  {
    assert [a, b, c, d] == [a] + [b] + [c] + [d];
    PresentesConcat([a] + [b] + [c], [d]);
    PresentesConcat([a] + [b], [c]);
    PresentesConcat([a], [b]);
    PresentesDeUm(a);
    PresentesDeUm(b);
    PresentesDeUm(c);
    PresentesDeUm(d);
  }

  /** Two values filter to the truthy ones among them, in their order. */
  lemma PresentesDoPar(a: Option<string>, b: Option<string>)
    ensures Presentes([a, b]) == Campo(a) + Campo(b)
  {
    assert [a, b] == [a] + [b];
    PresentesConcat([a], [b]);
    PresentesDeUm(a);
    PresentesDeUm(b);
  }

  /** Non-empty parts joined by anything make non-empty text. */
  lemma {:induction false} JuntarNaoVazio(parts: seq<string>, sep: string)
    requires forall i :: 0 <= i < |parts| ==> parts[i] != ""
    ensures Join(parts, sep) == "" <==> parts == []
  {
    if |parts| > 1 {
      assert Join(parts, sep) == parts[0] + sep + Join(parts[1..], sep);
      assert |parts[0]| > 0;
    }
  }

  lemma JuntarDois(a: string, b: string, sep: string)
    ensures Join([a, b], sep) == a + sep + b
  {
    assert [a, b][1..] == [b];
  }

  /** Street and number, joined by ", ". */
  function Rua(logradouro: Option<string>, numero: Option<string>): string
  {
    Join(Presentes([logradouro, numero]), ", ")
  }

  /** City and state, joined by " - ". */
  function Cidade(cidade: Option<string>, uf: Option<string>): string
  {
    Join(Presentes([cidade, uf]), " - ")
  }

  /**
   * `formatEndereco`: "" for an absent or empty address, ready text as it
   * came, and otherwise the street group, the district, the city group and
   * the postal code, the empty ones left out, joined by ", ".
   */
  function FormatEndereco(e: EnderecoApi): (r: string)
    ensures e.Ausente? ==> r == ""
    ensures e.Texto? ==> r == e.texto
  {
    match e
    case Ausente => ""
    case Texto(t) => if t == "" then "" else t
    case Objeto(logradouro, numero, bairro, cidade, uf, cep) =>
      Join(Presentes([Some(Rua(logradouro, numero)), bairro, Some(Cidade(cidade, uf)), cep]), ", ")
  }

  /**
   * Every address by fields: the street group (street and number joined by
   * ", ", only the truthy ones), the district, the city group (city and state
   * joined by " - ") and the postal code, each kept only when it is not
   * empty, joined by ", ".
   */
  lemma ObjetoPorCampos(logradouro: Option<string>, numero: Option<string>, bairro: Option<string>,
                        cidade: Option<string>, uf: Option<string>, cep: Option<string>)
    ensures FormatEndereco(Objeto(logradouro, numero, bairro, cidade, uf, cep))
      == Join(Campo(Some(Join(Campo(logradouro) + Campo(numero), ", "))) + Campo(bairro)
              + Campo(Some(Join(Campo(cidade) + Campo(uf), " - "))) + Campo(cep), ", ")
  {
    PresentesDoPar(logradouro, numero);
    PresentesDoPar(cidade, uf);
    PresentesPorCampo(Some(Rua(logradouro, numero)), bairro, Some(Cidade(cidade, uf)), cep);
  }

  /** An address by fields gives "" exactly when none of its six fields holds anything. */
  lemma ObjetoVazio(logradouro: Option<string>, numero: Option<string>, bairro: Option<string>,
                    cidade: Option<string>, uf: Option<string>, cep: Option<string>)
    ensures FormatEndereco(Objeto(logradouro, numero, bairro, cidade, uf, cep)) == "" <==>
      !Verdadeiro(logradouro) && !Verdadeiro(numero) && !Verdadeiro(bairro)
      && !Verdadeiro(cidade) && !Verdadeiro(uf) && !Verdadeiro(cep)
  {
    GrupoVazio(logradouro, numero, ", ");
    GrupoVazio(cidade, uf, " - ");
    var grupos := [Some(Rua(logradouro, numero)), bairro, Some(Cidade(cidade, uf)), cep];
    JuntarNaoVazio(Presentes(grupos), ", ");
    assert grupos[0] == Some(Rua(logradouro, numero)) && grupos[1] == bairro;
    assert grupos[2] == Some(Cidade(cidade, uf)) && grupos[3] == cep;
  }

  /** A group of two fields is "" exactly when neither holds anything. */
  lemma GrupoVazio(a: Option<string>, b: Option<string>, sep: string)
    ensures Join(Presentes([a, b]), sep) == "" <==> !Verdadeiro(a) && !Verdadeiro(b)
  {
    JuntarNaoVazio(Presentes([a, b]), sep);
    assert [a, b][0] == a && [a, b][1] == b;
  }

  lemma JuntarQuatro(a: string, b: string, c: string, d: string, sep: string)
    ensures Join([a, b, c, d], sep) == a + sep + b + sep + c + sep + d
  {
    JuntarDois(c, d, sep);
    assert [a, b, c, d][1..] == [b, c, d];
    assert [b, c, d][1..] == [c, d];
  }

  /** With every field present, the line is street, number, district, city - state and code, in that order. */
  lemma TodosOsCampos(logradouro: string, numero: string, bairro: string, cidade: string, uf: string, cep: string)
    requires logradouro != "" && numero != "" && bairro != "" && cidade != "" && uf != "" && cep != ""
    ensures FormatEndereco(Objeto(Some(logradouro), Some(numero), Some(bairro), Some(cidade), Some(uf), Some(cep)))
      == logradouro + ", " + numero + ", " + bairro + ", " + cidade + " - " + uf + ", " + cep
  {
    ObjetoPorCampos(Some(logradouro), Some(numero), Some(bairro), Some(cidade), Some(uf), Some(cep));
    assert [logradouro] + [numero] == [logradouro, numero];
    JuntarDois(logradouro, numero, ", ");
    assert [cidade] + [uf] == [cidade, uf];
    JuntarDois(cidade, uf, " - ");
    var rua := logradouro + ", " + numero;
    var cid := cidade + " - " + uf;
    assert [rua] + [bairro] + [cid] + [cep] == [rua, bairro, cid, cep];
    JuntarQuatro(rua, bairro, cid, cep, ", ");
  }

  /** The expected line of the unit tests, piece by piece. */
  lemma LinhaDoTeste()
    ensures "Rua A" + ", " + "10" + ", " + "Centro" + ", " + "São Paulo" + " - " + "SP" + ", " + "01000-000"
      == "Rua A, 10, Centro, São Paulo - SP, 01000-000"
  {
    assert "Rua A" + ", " == "Rua A, ";
    assert "Rua A, " + "10" == "Rua A, 10";
    assert "Rua A, 10" + ", " == "Rua A, 10, ";
    assert "Rua A, 10, " + "Centro" == "Rua A, 10, Centro";
    assert "Rua A, 10, Centro" + ", " == "Rua A, 10, Centro, ";
    assert "Rua A, 10, Centro, " + "São Paulo" == "Rua A, 10, Centro, São Paulo";
    assert "Rua A, 10, Centro, São Paulo" + " - " == "Rua A, 10, Centro, São Paulo - ";
    assert "Rua A, 10, Centro, São Paulo - " + "SP" == "Rua A, 10, Centro, São Paulo - SP";
    assert "Rua A, 10, Centro, São Paulo - SP" + ", " == "Rua A, 10, Centro, São Paulo - SP, ";
  }

  /** The full address of the unit tests formats to its expected line. */
  lemma EnderecoCompleto()
    ensures FormatEndereco(Objeto(Some("Rua A"), Some("10"), Some("Centro"), Some("São Paulo"), Some("SP"), Some("01000-000")))
      == "Rua A, 10, Centro, São Paulo - SP, 01000-000"
  {
    TodosOsCampos("Rua A", "10", "Centro", "São Paulo", "SP", "01000-000");
    LinhaDoTeste();
  }
}
