/** Shared vocabulary: identities, optional values, the errors the system raises,
    and the shape of a call on a mutable object. */
module Common {

  /** An explicit identity, standing for the object identity the system uses. */
  type Id = nat

  datatype Option<+T> = None | Some(value: T)

  /** The exceptions raised by the competition manager. */
  datatype Error =
    | InvalidWinner            // Luta.registrar_resultado
    | TeamAlreadyRegistered    // LiderDeEquipe.cadastrar_equipe
    | TeamRequired             // LiderDeEquipe.adicionar_membro / cadastrar_robo
    | RobotNotInTeam           // LiderDeEquipe.inscrever_robo
    | InvalidCompetitionType   // Organizador.adicionar_competicao

  /** What a call returned, or the exception it raised. */
  datatype Result<+T> = Ok(value: T) | Err(error: Error)

  /** The effect of calling a method on a mutable object: the object's state
      once the call is over, and what the call returned or raised. */
  datatype Step<+S, +T> = Step(state: S, result: Result<T>)
}
