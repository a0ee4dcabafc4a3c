/**
 * One row of `dati_simulati_xylella.csv`, the dataset that both the dashboard
 * and the predictive model read once at import time. Loading the file is not
 * modelled: the dataset is handed to the model as an immutable sequence.
 */
module Dataset {
  import opened Wrappers

  /** The CSV columns, in file order: Data, Provincia, Temperatura (°C),
      Umidità (%), Precipitazioni (mm), Alberi_Totali, Alberi_Infetti,
      Alberi_Ripiantati, Produzione_Olio. */
  datatype Record = Record(
    data: string,
    provincia: string,
    temperatura: real,
    umidita: real,
    precipitazioni: real,
    alberiTotali: int,
    alberiInfetti: int,
    alberiRipiantati: int,
    produzioneOlio: real)

  /** Looks a numeric column up by its CSV header, as `df[name]` does; the
      text columns and unknown headers have no numeric value. */
  function Column(r: Record, name: string): (v: Option<real>)
    ensures v.None? <==> name !in NumericColumns
  {
    if name == "Temperatura (°C)" then Some(r.temperatura)
    else if name == "Umidità (%)" then Some(r.umidita)
    else if name == "Precipitazioni (mm)" then Some(r.precipitazioni)
    else if name == "Alberi_Totali" then Some(r.alberiTotali as real)
    else if name == "Alberi_Infetti" then Some(r.alberiInfetti as real)
    else if name == "Alberi_Ripiantati" then Some(r.alberiRipiantati as real)
    else if name == "Produzione_Olio" then Some(r.produzioneOlio)
    else None
  }

  /** The headers of the numeric columns of the CSV file. */
  const NumericColumns: set<string> :=
    {"Temperatura (°C)", "Umidità (%)", "Precipitazioni (mm)", "Alberi_Totali",
     "Alberi_Infetti", "Alberi_Ripiantati", "Produzione_Olio"}
}
