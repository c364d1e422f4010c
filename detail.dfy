/** The render precedence every detail screen uses: a loading message, then a
    truthy error, then a "nothing to show" message, then the record. */
module Detail {
  import opened Base

  datatype View<+T> = Carregando | Erro(message: string) | Vazio | Mostra(value: T)

  /** `if (loading) …; if (error) …; if (!record) …; return <record/>`. An
      empty error message is falsy and falls through to the later checks. */
  function DetailView<T>(loading: bool, error: Option<string>, record: Option<T>): (v: View<T>)
    ensures loading <==> v.Carregando?
    ensures v.Erro? <==> !loading && Truthy(error)
    ensures v.Erro? ==> v.message == error.value
    ensures v.Mostra? <==> !loading && !Truthy(error) && record.Some?
    ensures v.Mostra? ==> v.value == record.value
  {
    if loading then Carregando
    else if Truthy(error) then Erro(error.value)
    else match record
      case None => Vazio
      case Some(r) => Mostra(r)
  }
}
