// What the runtime queues and stores: the two kinds of Worker::Task (reyao/worker.h:57-77) and the
// function objects the hooks build.
module Tasks {

  // The two interests an IO event can have: EPOLLIN and EPOLLOUT.
  datatype Dir = In | Out

  type CoId = nat       // a coroutine
  type TInfo = nat      // the shared `timerInfo` of one hooked call
  type TimerId = nat    // a timer object

  datatype Func =
    | Wake(home: nat, co: CoId)                      // bind(addTask, worker, co): reyao/hook.cc:176-178
    | IoTimeout(tinfo: TInfo, fd: nat, dir: Dir)     // the lambda at reyao/hook.cc:119-129
    | User(id: nat)                                  // any function of the program itself

  datatype Task = CoTask(co: CoId) | FuncTask(func: Func)
}
