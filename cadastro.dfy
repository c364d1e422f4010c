/** The sign-up form. */
module Cadastro {
  import opened Base
  import opened Http
  import opened Forms

  const MismatchText := "As senhas não coincidem"
  const RegisterFailText := "Falha ao registrar usuário."
  const RegisteredText := "Usuário registrado com sucesso! Você já pode fazer o login."

  datatype CadastroInputs = CadastroInputs(nome_usuario: string, senha: string, confirmar_senha: string)

  /** The body posted to `/usuarios`. */
  datatype Registro = Registro(nome_usuario: string, senha: string, tipo_usuario: string)

  /** The rule on `confirmar_senha`: valid (`None`) exactly when it equals
      the password, otherwise the mismatch message. */
  function ConfirmacaoErro(confirmar_senha: string, senha: string): (err: Option<string>)
    ensures err.None? <==> confirmar_senha == senha
    ensures err.Some? ==> err.value == MismatchText
  {
    if confirmar_senha == senha then None else Some(MismatchText)
  }

  /** `registraUsuario`: the role is always the player role, whatever was
      typed; success goes to the login page. */
  function RegistraUsuario(data: CadastroInputs, resp: Response<ErrorBody>): (e: Effects<Registro>)
    ensures e.request == Some(Sent(Call(POST, "/usuarios"), Registro(data.nome_usuario, data.senha, PlayerRole)))
    ensures e.navigateTo.Some? <==> resp.Reply? && resp.ok
    ensures e.navigateTo.Some? ==> e.navigateTo.value == "/login" && e.toasts == [SuccessToast(RegisteredText)]
    ensures e.navigateTo.None? ==> e.toasts == [ErrorToast(SubmitOutcome(resp, RegisterFailText).message)]
  {
    Submitted(Call(POST, "/usuarios"), Registro(data.nome_usuario, data.senha, PlayerRole), resp,
              RegisterFailText, RegisteredText, "/login")
  }

  /** `handleSubmit(registraUsuario)`: the handler runs only when the
      confirmation rule holds; otherwise nothing is sent. */
  function Submit(data: CadastroInputs, resp: Response<ErrorBody>): (e: Effects<Registro>)
    ensures ConfirmacaoErro(data.confirmar_senha, data.senha).Some? ==> e == Effects(None, [], None)
    ensures ConfirmacaoErro(data.confirmar_senha, data.senha).None? ==> e == RegistraUsuario(data, resp)
  {
    if ConfirmacaoErro(data.confirmar_senha, data.senha).Some? then Effects(None, [], None)
    else RegistraUsuario(data, resp)
  }

  /** Whatever is sent was confirmed, and it never asks for the
      administrator role. */
  lemma SentRegistrationIsConfirmedPlayer(data: CadastroInputs, resp: Response<ErrorBody>)
    ensures Submit(data, resp).request.Some? ==> data.confirmar_senha == data.senha
    ensures Submit(data, resp).request.Some? ==>
              Submit(data, resp).request.value.body.tipo_usuario == PlayerRole &&
              Submit(data, resp).request.value.body.tipo_usuario != AdminRole
  {
  }
}
