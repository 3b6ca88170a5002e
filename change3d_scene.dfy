/**
 * The actions of Change3DScene (src/GameScenes/Change3DScene.ts). The scene
 * has no state of its own, so its actions are module methods acting on the
 * shared AR and game engines; its name is `Scenes.Name(Change3D)`.
 */
module Change3DScene {
  import opened Wrappers
  import opened Scenes
  import Game
  import Ar
  import Cv

  /** Shows the first test model: it becomes the only model root in the AR scene. */
  method Model1(ar: Ar.AREngine)
    requires ar.Valid()
    modifies ar`children, ar`baseNode, ar`arScene, ar`nextNodeId
    ensures ar.Valid()
    ensures ar.arScene == Some(Ar.TestScene)
    ensures ar.baseNode.Some? && ar.baseNode.value.ModelRoot? && ar.baseNode.value.tree == Ar.TestScene
    ensures forall c :: c in ar.children && c.ModelRoot? ==> c == ar.baseNode.value
    ensures forall c :: c in old(ar.children) && !c.ModelRoot? ==> c in ar.children
  {
    ar.ReplaceScene(Ar.TestScene);
  }

  /** Shows the second test model, in the same way. */
  method Model2(ar: Ar.AREngine)
    requires ar.Valid()
    modifies ar`children, ar`baseNode, ar`arScene, ar`nextNodeId
    ensures ar.Valid()
    ensures ar.arScene == Some(Ar.TestScene2)
    ensures ar.baseNode.Some? && ar.baseNode.value.ModelRoot? && ar.baseNode.value.tree == Ar.TestScene2
    ensures forall c :: c in ar.children && c.ModelRoot? ==> c == ar.baseNode.value
    ensures forall c :: c in old(ar.children) && !c.ModelRoot? ==> c in ar.children
  {
    ar.ReplaceScene(Ar.TestScene2);
  }

  /**
   * Goes back to a new TimerScene, which starts its 3 s countdown afresh.
   * Leaving a Change3DScene ends nothing and inits nothing: the trace only
   * gains the swap and, with a delegate that listens, the notification.
   */
  method Back(game: Game.GameEngine, cv: Cv.CvEngine)
    modifies game`scene, game`trace, cv`userProcessor
    ensures game.scene.Timer? && fresh(game.scene.timer)
    ensures game.scene.timer.sceneTime == 0.0 && game.scene.timer.RemainingTime() == TimerDurationSec
    ensures game.trace == old(game.trace) + Game.TransitionEvents(old(game.scene), game.scene, Game.Notifies(game.delegate))
    ensures old(game.scene) == Change3D ==>
      && game.trace == old(game.trace) + [Game.Swapped(game.scene)]
        + (if Game.Notifies(game.delegate) then [Game.Notified(game.scene)] else [])
      && cv.userProcessor == old(cv.userProcessor)
    ensures old(game.scene).OpenCV? ==> cv.userProcessor == None
  {
    var timer := new TimerScene();
    game.ChangeScene(Timer(timer), cv);
  }
}
