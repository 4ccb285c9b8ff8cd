/**
 * `java.time` values as integers, in the server's local time without zones:
 * a `LocalDateTime` is a count of seconds and a `LocalDate` a count of days,
 * both from 1970-01-01T00:00 (a Thursday). Sub-second precision is not kept.
 */
module Tempo {
  import opened Numeros

  type Instante = int
  type Data = int

  const SEGUNDOS_POR_DIA: int := 86400

  /** `LocalDateTime.toLocalDate`. */
  function DataDe(t: Instante): Data
  {
    t / SEGUNDOS_POR_DIA
  }

  /** `LocalDateTime.toLocalTime`, as seconds since midnight. */
  function HoraDoDia(t: Instante): (h: int)
    ensures 0 <= h < SEGUNDOS_POR_DIA
    ensures t == DataDe(t) * SEGUNDOS_POR_DIA + h
  {
    t % SEGUNDOS_POR_DIA
  }

  /** `getDayOfWeek().getValue()`: 1 is Monday, 7 is Sunday. */
  function DiaDaSemana(t: Instante): (d: int)
    ensures 1 <= d <= 7
  {
    (DataDe(t) + 3) % 7 + 1
  }

  function MaisMinutos(t: Instante, m: int): Instante
  {
    t + 60 * m
  }

  function MaisDias(t: Instante, d: int): Instante
  {
    t + SEGUNDOS_POR_DIA * d
  }

  /** `LocalDate.atStartOfDay`. */
  function InicioDoDia(d: Data): Instante
  {
    d * SEGUNDOS_POR_DIA
  }

  lemma DiaDaSemanaSemanal(t: Instante)
    ensures DiaDaSemana(MaisDias(t, 7)) == DiaDaSemana(t)
  {
    assert DataDe(MaisDias(t, 7)) == DataDe(t) + 7;
  }

  /** A proleptic Gregorian date. */
  datatype Civil = Civil(ano: int, mes: int, dia: int)

  /** The calendar date of a day count (the usual era-based conversion, exact for every day). */
  function CivilDeDias(d: Data): Civil
  {
    var z := d + 719468;
    var era := z / 146097;
    var doe := z - era * 146097;
    var yoe := (doe - doe / 1460 + doe / 36524 - doe / 146096) / 365;
    var doy := doe - (365 * yoe + yoe / 4 - yoe / 100);
    var mp := (5 * doy + 2) / 153;
    var dia := doy - (153 * mp + 2) / 5 + 1;
    var mes := if mp < 10 then mp + 3 else mp - 9;
    var ano := yoe + era * 400 + (if mes <= 2 then 1 else 0);
    Civil(ano, mes, dia)
  }

  /** The day count of a calendar date. */
  function DiasDeCivil(c: Civil): Data
  {
    var y := if c.mes <= 2 then c.ano - 1 else c.ano;
    var era := y / 400;
    var yoe := y - era * 400;
    var mp := if c.mes > 2 then c.mes - 3 else c.mes + 9;
    var doy := (153 * mp + 2) / 5 + c.dia - 1;
    var doe := yoe * 365 + yoe / 4 - yoe / 100 + doy;
    era * 146097 + doe - 719468
  }

  /** The first day of the month holding `d`, and the first day of the following month. */
  function InicioDoMes(d: Data): Data
  {
    var c := CivilDeDias(d);
    DiasDeCivil(Civil(c.ano, c.mes, 1))
  }

  function InicioDoMesSeguinte(d: Data): Data
  {
    var c := CivilDeDias(d);
    if c.mes == 12 then DiasDeCivil(Civil(c.ano + 1, 1, 1)) else DiasDeCivil(Civil(c.ano, c.mes + 1, 1))
  }

  function Pad(s: string, width: nat): (r: string)
    ensures |r| >= width
    decreases width - |s|
  {
    if |s| >= width then s else Pad("0" + s, width)
  }

  /** `LocalDate.toString`: ISO yyyy-MM-dd, with a sign outside years 0..9999. */
  function IsoData(d: Data): string
  {
    var c := CivilDeDias(d);
    var ano := if c.ano > 9999 then "+" + LongToString(c.ano)
               else if c.ano < 0 then "-" + Pad(LongToString(-c.ano), 4)
               else Pad(LongToString(c.ano), 4);
    ano + "-" + Pad(LongToString(c.mes), 2) + "-" + Pad(LongToString(c.dia), 2)
  }
}
